/**
 * The loop helpers (`loops.ts`): which statements are loops, and the walk
 * that hands every expression inside a loop to a callback together with the
 * outermost loop that holds it. The callback's effect is recorded as the
 * sequence of calls it receives.
 *
 * The walk meets statements parent first (`StatementsInAll`); when it meets
 * a loop it has not marked, it marks that loop and every loop inside it, then
 * reports the loop's expressions. Marks are node ids, so the walk equals the
 * outermost-loop reference `OutermostCallsAll` when loop ids are unique.
 */
module Loops {
  import opened Ast

  /** `isLoop`: `while`, `until`, `repeat` and `foreach`, and nothing else. */
  predicate IsLoop(s: Stmt)
  {
    s.While? || s.Until? || s.Repeat? || s.Foreach?
  }

  /** One invocation of the callback: an expression and the loop it is reported with. */
  datatype Call = Call(expr: Expr, loop: Stmt)

  /** The walk's state: `seenLoopIds` and the calls made so far. */
  datatype Walk = Walk(seen: set<NodeId>, calls: seq<Call>)

  /** The ids of the loops among `ss`. */
  function LoopIds(ss: seq<Stmt>): set<NodeId>
  {
    set s | s in ss && IsLoop(s) :: s.id
  }

  /** No two loops among `ss` share an id. */
  predicate UniqueLoopIds(ss: seq<Stmt>)
  {
    forall i, j :: 0 <= i < j < |ss| && IsLoop(ss[i]) && IsLoop(ss[j]) ==> ss[i].id != ss[j].id
  }

  /** The calls for one loop: each of its expressions once, in order, with the loop. */
  function LoopCalls(loop: Stmt, es: seq<Expr>): (r: seq<Call>)
    ensures |r| == |es| && forall k :: 0 <= k < |es| ==> r[k] == Call(es[k], loop)
  {
    if es == [] then [] else LoopCalls(loop, es[..|es| - 1]) + [Call(es[|es| - 1], loop)]
  }

  /** What the walk does at one statement: an unmarked loop is marked with its nested loops and reported. */
  function Step(w: Walk, stmt: Stmt): Walk
  {
    if IsLoop(stmt) && stmt.id !in w.seen then
      Walk(w.seen + LoopIds(StatementsIn(stmt)), w.calls + LoopCalls(stmt, ExpressionsIn(stmt)))
    else w
  }

  /** The walk over `visited`, in order, from state `w`. */
  function Run(w: Walk, visited: seq<Stmt>): Walk
    decreases |visited|
  {
    if visited == [] then w else Run(Step(w, visited[0]), visited[1..])
  }

  // ---------------------------------------------------------------------------
  // The reference: expressions of outermost loops
  // ---------------------------------------------------------------------------

  /**
   * The calls a statement should give: a loop reports all its expressions
   * with itself and is not entered further; any other statement passes on
   * to the statements it holds.
   */
  function OutermostCalls(s: Stmt): seq<Call>
  {
    if IsLoop(s) then LoopCalls(s, ExpressionsIn(s))
    else match s
      case Condition(c) => OutermostCallsIf(c)
      case Try(_, _, body) => OutermostCallsAll(body)
      case TryCatch(_, _, body, _, handler) => OutermostCallsAll(body) + OutermostCallsAll(handler)
      case _ => []
  }

  function OutermostCallsAll(ss: seq<Stmt>): seq<Call>
  {
    if ss == [] then [] else OutermostCalls(ss[0]) + OutermostCallsAll(ss[1..])
  }

  function OutermostCallsIf(c: If): seq<Call>
  {
    OutermostCallsAll(c.trueStatements)
    + ((if c.falseStatements.Else? then OutermostCallsAll(c.falseStatements.statements) else [])
       + (if c.elseif.Some? then OutermostCallsIf(c.elseif.value) else []))
  }

  // ---------------------------------------------------------------------------
  // Facts about the walk
  // ---------------------------------------------------------------------------

  /** `seenLoopIds` only grows, and calls are only appended. */
  lemma {:induction false} SeenOnlyGrows(w: Walk, visited: seq<Stmt>)
    decreases |visited|
    ensures w.seen <= Run(w, visited).seen
    ensures w.calls <= Run(w, visited).calls
  {
    if visited != [] {
      SeenOnlyGrows(Step(w, visited[0]), visited[1..]);
    }
  }

  lemma {:induction false} RunConcat(w: Walk, a: seq<Stmt>, b: seq<Stmt>)
    decreases |a|
    ensures Run(w, a + b) == Run(Run(w, a), b)
  {
    if a == [] {
      assert a + b == b;
    } else {
      assert (a + b)[0] == a[0] && (a + b)[1..] == a[1..] + b;
      RunConcat(Step(w, a[0]), a[1..], b);
    }
  }

  /** A walk over statements whose loops are all marked changes nothing. */
  lemma {:induction false} MarkedLoopsAreSkipped(w: Walk, visited: seq<Stmt>)
    decreases |visited|
    requires LoopIds(visited) <= w.seen
    ensures Run(w, visited) == w
  {
    if visited != [] {
      assert visited[0] in visited;
      assert LoopIds(visited[1..]) <= LoopIds(visited) by {
        forall s | s in visited[1..] ensures s in visited {}
      }
      MarkedLoopsAreSkipped(w, visited[1..]);
    }
  }

  /**
   * Once a loop is reported, every loop nested in it is skipped wherever the
   * walk meets it afterwards: it is never reported as an enclosing loop.
   */
  lemma NestedLoopIsSkipped(w: Walk, loop: Stmt, later: seq<Stmt>, nested: Stmt)
    requires IsLoop(loop) && loop.id !in w.seen
    requires nested in StatementsIn(loop) && IsLoop(nested)
    ensures nested.id in Step(w, loop).seen
    ensures Step(Run(Step(w, loop), later), nested) == Run(Step(w, loop), later)
  {
    SeenOnlyGrows(Step(w, loop), later);
  }

  // ---------------------------------------------------------------------------
  // The walk agrees with the reference
  // ---------------------------------------------------------------------------

  lemma LoopIdsConcat(a: seq<Stmt>, b: seq<Stmt>)
    ensures LoopIds(a + b) == LoopIds(a) + LoopIds(b)
  {
    forall s | s in a + b ensures s in a || s in b {}
  }

  lemma UniqueSplit(a: seq<Stmt>, b: seq<Stmt>)
    requires UniqueLoopIds(a + b)
    ensures UniqueLoopIds(a) && UniqueLoopIds(b) && LoopIds(a) !! LoopIds(b)
  {
    var ab := a + b;
    forall i, j | 0 <= i < j < |a| && IsLoop(a[i]) && IsLoop(a[j]) ensures a[i].id != a[j].id {
      assert ab[i] == a[i] && ab[j] == a[j];
    }
    forall i, j | 0 <= i < j < |b| && IsLoop(b[i]) && IsLoop(b[j]) ensures b[i].id != b[j].id {
      assert ab[|a| + i] == b[i] && ab[|a| + j] == b[j];
    }
    forall i, j | 0 <= i < |a| && 0 <= j < |b| && IsLoop(a[i]) && IsLoop(b[j]) ensures a[i].id != b[j].id {
      assert ab[i] == a[i] && ab[|a| + j] == b[j];
    }
  }

  /**
   * Running over `xs` from any state that has marked none of its loops marks
   * exactly its loops and makes the calls `cs`.
   */
  ghost predicate Summarises(xs: seq<Stmt>, cs: seq<Call>)
  {
    forall w: Walk :: w.seen !! LoopIds(xs) ==> Run(w, xs) == Walk(w.seen + LoopIds(xs), w.calls + cs)
  }

  lemma Compose(a: seq<Stmt>, ca: seq<Call>, b: seq<Stmt>, cb: seq<Call>)
    requires Summarises(a, ca) && Summarises(b, cb) && LoopIds(a) !! LoopIds(b)
    ensures Summarises(a + b, ca + cb)
  {
    LoopIdsConcat(a, b);
    forall w: Walk | w.seen !! LoopIds(a + b)
      ensures Run(w, a + b) == Walk(w.seen + LoopIds(a + b), w.calls + (ca + cb))
    {
      RunConcat(w, a, b);
      UseSummary(a, ca, w);
      var mid := Walk(w.seen + LoopIds(a), w.calls + ca);
      UseSummary(b, cb, mid);
      CallsAssoc(w.calls, ca, cb);
    }
  }

  lemma CallsAssoc(x: seq<Call>, y: seq<Call>, z: seq<Call>)
    ensures (x + y) + z == x + (y + z)
  {
  }

  lemma UseSummary(xs: seq<Stmt>, cs: seq<Call>, w: Walk)
    requires Summarises(xs, cs) && w.seen !! LoopIds(xs)
    ensures Run(w, xs) == Walk(w.seen + LoopIds(xs), w.calls + cs)
  {
  }

  lemma EmptySummary()
    ensures Summarises([], [])
  {
    assert LoopIds([]) == {};
    forall w: Walk ensures Run(w, []) == Walk(w.seen + {}, w.calls + []) {
      assert w.calls + [] == w.calls;
    }
  }

  /** A statement that is not a loop does nothing itself. */
  lemma NonLoopSummary(s: Stmt)
    requires !IsLoop(s)
    ensures Summarises([s], [])
  {
    assert LoopIds([s]) == {};
    forall w: Walk ensures Run(w, [s]) == Walk(w.seen + {}, w.calls + []) {
      assert [s][1..] == [];
      assert w.calls + [] == w.calls;
    }
  }

  /** An unmarked loop is reported and everything inside it is skipped. */
  lemma LoopSummary(s: Stmt)
    requires IsLoop(s)
    ensures Summarises(StatementsIn(s), LoopCalls(s, ExpressionsIn(s)))
  {
    var xs := StatementsIn(s);
    forall w: Walk | w.seen !! LoopIds(xs)
      ensures Run(w, xs) == Walk(w.seen + LoopIds(xs), w.calls + LoopCalls(s, ExpressionsIn(s)))
    {
      assert s in xs;
      var after := Step(w, s);
      assert LoopIds(xs[1..]) <= after.seen by {
        forall t | t in xs[1..] ensures t in xs {}
      }
      MarkedLoopsAreSkipped(after, xs[1..]);
    }
  }

  lemma {:induction false} StmtSummary(s: Stmt)
    requires UniqueLoopIds(StatementsIn(s))
    ensures Summarises(StatementsIn(s), OutermostCalls(s))
  {
    if IsLoop(s) {
      LoopSummary(s);
    } else {
      match s
      case Condition(c) =>
        IfSummary(c);
      case Try(_, _, body) =>
        assert StatementsIn(s) == [s] + StatementsInAll(body);
        UniqueSplit([s], StatementsInAll(body));
        NonLoopSummary(s);
        AllSummary(body);
        Compose([s], [], StatementsInAll(body), OutermostCallsAll(body));
      case TryCatch(_, _, body, _, handler) =>
        var b, h := StatementsInAll(body), StatementsInAll(handler);
        assert StatementsIn(s) == [s] + (b + h);
        UniqueSplit([s], b + h);
        UniqueSplit(b, h);
        NonLoopSummary(s);
        AllSummary(body);
        AllSummary(handler);
        Compose(b, OutermostCallsAll(body), h, OutermostCallsAll(handler));
        Compose([s], [], b + h, OutermostCallsAll(body) + OutermostCallsAll(handler));
      case Let(_, _, _, _) => NonLoopSummary(s);
      case Return(_, _, _) => NonLoopSummary(s);
      case ExpressionStmt(_, _, _) => NonLoopSummary(s);
      case Assign(_, _, _, _) => NonLoopSummary(s);
      case AugmentedAssign(_, _, _, _, _) => NonLoopSummary(s);
    }
  }

  lemma {:induction false} AllSummary(ss: seq<Stmt>)
    requires UniqueLoopIds(StatementsInAll(ss))
    ensures Summarises(StatementsInAll(ss), OutermostCallsAll(ss))
  {
    if ss == [] {
      EmptySummary();
    } else {
      var head, tail := StatementsIn(ss[0]), StatementsInAll(ss[1..]);
      UniqueSplit(head, tail);
      StmtSummary(ss[0]);
      AllSummary(ss[1..]);
      Compose(head, OutermostCalls(ss[0]), tail, OutermostCallsAll(ss[1..]));
    }
  }

  lemma {:induction false} IfSummary(c: If)
    requires UniqueLoopIds(StatementsInIf(c))
    ensures Summarises(StatementsInIf(c), OutermostCallsIf(c))
    decreases c, 1
  {
    IfPartsUnique(c);
    AllSummary(c.trueStatements);
    ElseSummary(c);
    IfFromParts(c);
  }

  /** A conditional statement does nothing itself; its summary is that of its `then` block and the rest. */
  lemma IfFromParts(c: If)
    requires UniqueLoopIds(StatementsInIf(c))
    requires Summarises(StatementsInAll(c.trueStatements), OutermostCallsAll(c.trueStatements))
    requires Summarises(ElseStatements(c), ElseCalls(c))
    ensures Summarises(StatementsInIf(c), OutermostCallsIf(c))
  {
    var t, rest := StatementsInAll(c.trueStatements), ElseStatements(c);
    var ct, crest := OutermostCallsAll(c.trueStatements), ElseCalls(c);
    IfSplits(c);
    NonLoopSummary(Condition(c));
    Compose3([Condition(c)], [], t, ct, rest, crest);
  }

  /** The walk of a conditional and its reference calls, split into the statement, its `then` block and the rest. */
  lemma IfSplits(c: If)
    ensures StatementsInIf(c) == [Condition(c)] + (StatementsInAll(c.trueStatements) + ElseStatements(c))
    ensures OutermostCallsIf(c) == [] + (OutermostCallsAll(c.trueStatements) + ElseCalls(c))
  {
    assert [] + (OutermostCallsAll(c.trueStatements) + ElseCalls(c)) == OutermostCallsAll(c.trueStatements) + ElseCalls(c);
  }

  /** A conditional statement, its `then` block, then the rest; each part keeps distinct loop ids. */
  lemma IfPartsUnique(c: If)
    requires UniqueLoopIds(StatementsInIf(c))
    ensures UniqueLoopIds(StatementsInAll(c.trueStatements)) && UniqueLoopIds(ElseStatements(c))
  {
    var t, rest := StatementsInAll(c.trueStatements), ElseStatements(c);
    IfSplits(c);
    UniqueSplit([Condition(c)], t + rest);
    UniqueSplit(t, rest);
  }

  lemma Compose3(x: seq<Stmt>, cx: seq<Call>, y: seq<Stmt>, cy: seq<Call>, z: seq<Stmt>, cz: seq<Call>)
    requires UniqueLoopIds(x + (y + z))
    requires Summarises(x, cx) && Summarises(y, cy) && Summarises(z, cz)
    ensures Summarises(x + (y + z), cx + (cy + cz))
  {
    UniqueSplit(x, y + z);
    UniqueSplit(y, z);
    Compose(y, cy, z, cz);
    LoopIdsConcat(y, z);
    Compose(x, cx, y + z, cy + cz);
  }

  /** The statements of a conditional after its `then` block: the `else` block, then the `else if` chain. */
  function ElseStatements(c: If): seq<Stmt>
  {
    (if c.falseStatements.Else? then StatementsInAll(c.falseStatements.statements) else [])
    + (if c.elseif.Some? then StatementsInIf(c.elseif.value) else [])
  }

  function ElseCalls(c: If): seq<Call>
  {
    (if c.falseStatements.Else? then OutermostCallsAll(c.falseStatements.statements) else [])
    + (if c.elseif.Some? then OutermostCallsIf(c.elseif.value) else [])
  }

  lemma {:induction false} ElseSummary(c: If)
    requires UniqueLoopIds(ElseStatements(c))
    ensures Summarises(ElseStatements(c), ElseCalls(c))
    decreases c, 0
  {
    var f := if c.falseStatements.Else? then StatementsInAll(c.falseStatements.statements) else [];
    var e := if c.elseif.Some? then StatementsInIf(c.elseif.value) else [];
    UniqueSplit(f, e);
    if c.falseStatements.Else? {
      AllSummary(c.falseStatements.statements);
    } else {
      EmptySummary();
    }
    if c.elseif.Some? {
      IfSummary(c.elseif.value);
    } else {
      EmptySummary();
    }
    var cf := if c.falseStatements.Else? then OutermostCallsAll(c.falseStatements.statements) else [];
    var ce := if c.elseif.Some? then OutermostCallsIf(c.elseif.value) else [];
    Compose(f, cf, e, ce);
  }

  /**
   * With unique loop ids, the walk reports exactly the expressions of the
   * outermost loops, each once, with its outermost loop, in walk order.
   */
  lemma WalkReportsOutermostLoops(node: seq<Stmt>)
    requires UniqueLoopIds(StatementsInAll(node))
    ensures Run(Walk({}, []), StatementsInAll(node)).calls == OutermostCallsAll(node)
  {
    AllSummary(node);
    assert Walk({}, []).seen !! LoopIds(StatementsInAll(node));
  }

  /** Every reported call pairs a loop with one of that loop's own expressions. */
  lemma {:induction false} CallsAreLoopExpressions(s: Stmt, call: Call)
    requires call in OutermostCalls(s)
    ensures IsLoop(call.loop) && call.expr in ExpressionsIn(call.loop) && call.loop in StatementsIn(s)
  {
    if IsLoop(s) {
      var k :| 0 <= k < |ExpressionsIn(s)| && LoopCalls(s, ExpressionsIn(s))[k] == call;
    } else {
      match s
      case Condition(c) =>
        CallsAreLoopExpressionsIf(c, call);
      case Try(_, _, body) =>
        CallsAreLoopExpressionsAll(body, call);
      case TryCatch(_, _, body, _, handler) =>
        if call in OutermostCallsAll(body) {
          CallsAreLoopExpressionsAll(body, call);
        } else {
          CallsAreLoopExpressionsAll(handler, call);
        }
    }
  }

  lemma {:induction false} CallsAreLoopExpressionsAll(ss: seq<Stmt>, call: Call)
    requires call in OutermostCallsAll(ss)
    ensures IsLoop(call.loop) && call.expr in ExpressionsIn(call.loop) && call.loop in StatementsInAll(ss)
  {
    if call in OutermostCalls(ss[0]) {
      CallsAreLoopExpressions(ss[0], call);
    } else {
      CallsAreLoopExpressionsAll(ss[1..], call);
    }
  }

  lemma {:induction false} CallsAreLoopExpressionsIf(c: If, call: Call)
    requires call in OutermostCallsIf(c)
    ensures IsLoop(call.loop) && call.expr in ExpressionsIn(call.loop) && call.loop in StatementsInIf(c)
  {
    if call in OutermostCallsAll(c.trueStatements) {
      CallsAreLoopExpressionsAll(c.trueStatements, call);
    } else if c.falseStatements.Else? && call in OutermostCallsAll(c.falseStatements.statements) {
      CallsAreLoopExpressionsAll(c.falseStatements.statements, call);
    } else {
      CallsAreLoopExpressionsIf(c.elseif.value, call);
    }
  }

  // ---------------------------------------------------------------------------
  // The walk as the source runs it
  // ---------------------------------------------------------------------------

  lemma RunSnoc(w: Walk, visited: seq<Stmt>, stmt: Stmt)
    ensures Run(w, visited + [stmt]) == Step(Run(w, visited), stmt)
  {
    RunConcat(w, visited, [stmt]);
    assert Run(Run(w, visited), [stmt]) == Run(Step(Run(w, visited), stmt), []) by {
      assert [stmt][1..] == [];
    }
  }

  /**
   * `forEachExpressionInLoop`: the calls the callback receives while the walk
   * meets the statements of `node`.
   */
  method ForEachExpressionInLoop(node: seq<Stmt>) returns (calls: seq<Call>)
    ensures calls == Run(Walk({}, []), StatementsInAll(node)).calls
    ensures UniqueLoopIds(StatementsInAll(node)) ==> calls == OutermostCallsAll(node)
  {
    var visited := StatementsInAll(node);
    var seenLoopIds: set<NodeId> := {};
    calls := [];
    for i := 0 to |visited|
      invariant Walk(seenLoopIds, calls) == Run(Walk({}, []), visited[..i])
    {
      RunSnoc(Walk({}, []), visited[..i], visited[i]);
      assert visited[..i + 1] == visited[..i] + [visited[i]];
      var stmt := visited[i];
      if IsLoop(stmt) && stmt.id !in seenLoopIds {
        seenLoopIds := MarkLoops(seenLoopIds, StatementsIn(stmt));
        var exprs := ExpressionsIn(stmt);
        ghost var before := calls;
        for j := 0 to |exprs|
          invariant calls == before + LoopCalls(stmt, exprs[..j])
        {
          assert exprs[..j + 1][..j] == exprs[..j];
          calls := calls + [Call(exprs[j], stmt)];
        }
        assert exprs[..|exprs|] == exprs;
      }
    }
    assert visited[..|visited|] == visited;
    if UniqueLoopIds(visited) {
      WalkReportsOutermostLoops(node);
    }
  }

  /** The inner walk: every loop among `inner` is added to `seen`. */
  method MarkLoops(seen: set<NodeId>, inner: seq<Stmt>) returns (marked: set<NodeId>)
    ensures marked == seen + LoopIds(inner)
  {
    marked := seen;
    for j := 0 to |inner|
      invariant marked == seen + LoopIds(inner[..j])
    {
      assert inner[..j + 1] == inner[..j] + [inner[j]];
      LoopIdsConcat(inner[..j], [inner[j]]);
      if IsLoop(inner[j]) {
        marked := marked + {inner[j].id};
      }
    }
    assert inner[..|inner|] == inner;
  }
}
