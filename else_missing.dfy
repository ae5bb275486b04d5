/**
 * The missing-`else` detector (`elseMissingDetector.ts`): every conditional
 * statement the walk visits is checked, and the check follows its `else if`
 * chain link by link. A link is reported when the next link exists and has no
 * `else` block of its own; the warning carries the reporting link's location.
 */
module ElseMissing {
  import opened Ast
  import opened Warnings

  const Message := "Conditional statement with 'else if' clauses should end with an 'else' clause"

  /** The links of an `else if` chain, `c` first. */
  function Links(c: If): (r: seq<If>)
    ensures |r| > 0 && r[0] == c
  {
    [c] + (if c.elseif.Some? then Links(c.elseif.value) else [])
  }

  /** The condition the check tests on one link. */
  predicate NextLinkLacksElse(c: If)
  {
    c.elseif.Some? && c.elseif.value.falseStatements.NoElse?
  }

  /** The warnings `checkConditionStatement(c)` reports, in order. */
  function ChainWarnings(c: If): seq<Warning>
  {
    (if NextLinkLacksElse(c) then [Warning(Message, c.id)] else [])
    + (if c.elseif.Some? then ChainWarnings(c.elseif.value) else [])
  }

  /** The warnings of every conditional statement in `visited`, in order. */
  function VisitedWarnings(visited: seq<Stmt>): seq<Warning>
  {
    if visited == [] then []
    else
      var last := visited[|visited| - 1];
      VisitedWarnings(visited[..|visited| - 1]) + (if last.Condition? then ChainWarnings(last.cond) else [])
  }

  /** One more visited statement adds its chain's warnings at the end. */
  lemma VisitedWarningsStep(base: seq<Warning>, visited: seq<Stmt>, i: nat, reported: seq<Warning>)
    requires i < |visited|
    requires reported == base + VisitedWarnings(visited[..i])
    ensures visited[i].Condition? ==> reported + ChainWarnings(visited[i].cond) == base + VisitedWarnings(visited[..i + 1])
    ensures !visited[i].Condition? ==> reported == base + VisitedWarnings(visited[..i + 1])
  {
    var prefix := visited[..i + 1];
    assert prefix[..|prefix| - 1] == visited[..i];
    AppendToReport(base, VisitedWarnings(visited[..i]), if visited[i].Condition? then ChainWarnings(visited[i].cond) else []);
  }

  /** The warnings of a program's entries, visited in the walk's order. */
  function EntryWarnings(entries: seq<Stmt>): seq<Warning>
  {
    VisitedWarnings(StatementsInAll(entries))
  }

  // ---------------------------------------------------------------------------
  // Properties of the chain check
  // ---------------------------------------------------------------------------

  /** A warning is reported for exactly the links whose next link has no `else`. */
  lemma {:induction false} ChainWarningsExact(c: If, w: Warning)
    ensures w in ChainWarnings(c) <==> exists l :: l in Links(c) && NextLinkLacksElse(l) && w == Warning(Message, l.id)
  {
    if c.elseif.Some? {
      ChainWarningsExact(c.elseif.value, w);
    }
  }

  /** Every link but the last can be reported, so a chain gives fewer warnings than it has links. */
  lemma {:induction false} ChainWarningsCount(c: If)
    ensures |ChainWarnings(c)| < |Links(c)|
  {
    if c.elseif.Some? {
      ChainWarningsCount(c.elseif.value);
    }
  }

  /** An `if` without `else if` is not reported and the check stops there. */
  lemma NoElseIfNoWarning(c: If)
    requires c.elseif.None?
    ensures ChainWarnings(c) == [] && Links(c) == [c]
  {
  }

  /** A chain whose links all end in `else` is not reported. */
  lemma {:induction false} ElseEverywhereNoWarning(c: If)
    requires forall l :: l in Links(c) && l != c ==> l.falseStatements.Else?
    ensures ChainWarnings(c) == []
  {
    if c.elseif.Some? {
      var next := c.elseif.value;
      assert Links(c) == [c] + Links(next);
      assert next in Links(c) && next != c;
      forall l | l in Links(next) && l != next ensures l.falseStatements.Else? {
        LinksAreShorter(next, l);
      }
      ElseEverywhereNoWarning(next);
    }
  }

  /** Only the first link of a chain is the chain itself; every other link is a strictly smaller value. */
  lemma {:induction false} LinksAreShorter(c: If, l: If)
    requires l in Links(c) && l != c
    ensures l < c
  {
    var next := c.elseif.value;
    if l != next {
      LinksAreShorter(next, l);
    }
  }

  /** A warning of a visited statement comes from a conditional statement among them. */
  lemma {:induction false} VisitedWarningsExact(visited: seq<Stmt>, w: Warning)
    ensures w in VisitedWarnings(visited) <==> exists s :: s in visited && s.Condition? && w in ChainWarnings(s.cond)
  {
    if visited != [] {
      var init, last := visited[..|visited| - 1], visited[|visited| - 1];
      VisitedWarningsExact(init, w);
      assert visited == init + [last];
      if w in VisitedWarnings(visited) {
        if w in VisitedWarnings(init) {
          var s :| s in init && s.Condition? && w in ChainWarnings(s.cond);
          assert s in visited;
        } else {
          assert last in visited;
        }
      }
      if exists s :: s in visited && s.Condition? && w in ChainWarnings(s.cond) {
        var s :| s in visited && s.Condition? && w in ChainWarnings(s.cond);
        if s !in init {
          assert s == last;
        }
      }
    }
  }

  /** Statements of any other kind add nothing. */
  lemma OnlyConditionsAreChecked(visited: seq<Stmt>, s: Stmt)
    requires !s.Condition?
    ensures VisitedWarnings(visited + [s]) == VisitedWarnings(visited)
  {
    assert (visited + [s])[..|visited|] == visited;
  }

  /**
   * `if a {} else if b {}`: the first link is reported, once, at its own
   * location.
   */
  lemma TwoLinkChainWithoutElse(b: If, c: If)
    requires b.elseif.None? && b.falseStatements.NoElse?
    requires c.elseif == Some(b)
    ensures ChainWarnings(c) == [Warning(Message, c.id)]
  {
  }

  /**
   * `if a {} else if b {} else if d {}` as the walk visits it. Two links lack
   * an `else`, yet there are three warnings. The walk visits the `else if`
   * link `b` as a conditional statement of its own, so `b` is reported once
   * from the chain of `a` and once from its own.
   */
  lemma ThreeLinkChainWithoutElseVisited(d: If, b: If, c: If)
    requires d.elseif.None? && d.falseStatements.NoElse? && d.trueStatements == []
    requires b.elseif == Some(d) && b.falseStatements.NoElse? && b.trueStatements == []
    requires c.elseif == Some(b) && c.falseStatements.NoElse? && c.trueStatements == []
    ensures EntryWarnings([Condition(c)]) == [Warning(Message, c.id), Warning(Message, b.id), Warning(Message, b.id)]
    ensures |EntryWarnings([Condition(c)])| == 3
  {
    var visited := [Condition(c), Condition(b), Condition(d)];
    ThreeLinkChainVisits(d, b, c);
    var two := [Condition(c), Condition(b)];
    assert VisitedWarnings(visited) == VisitedWarnings(two) + ChainWarnings(d) by {
      assert visited[..2] == two;
    }
    assert VisitedWarnings(two) == ChainWarnings(c) + ChainWarnings(b) by {
      assert two[..1] == [Condition(c)];
      assert [Condition(c)][..0] == [];
      assert VisitedWarnings([Condition(c)]) == ChainWarnings(c);
    }
    assert ChainWarnings(d) == [];
    assert ChainWarnings(b) == [Warning(Message, b.id)];
  }

  /** The walk visits every link of an `else if` chain as a conditional statement. */
  lemma ThreeLinkChainVisits(d: If, b: If, c: If)
    requires d.elseif.None? && d.falseStatements.NoElse? && d.trueStatements == []
    requires b.elseif == Some(d) && b.falseStatements.NoElse? && b.trueStatements == []
    requires c.elseif == Some(b) && c.falseStatements.NoElse? && c.trueStatements == []
    ensures StatementsInAll([Condition(c)]) == [Condition(c), Condition(b), Condition(d)]
  {
    var visited := [Condition(c), Condition(b), Condition(d)];
    assert StatementsInIf(d) == [Condition(d)];
    assert StatementsInIf(b) == [Condition(b), Condition(d)];
    assert StatementsInIf(c) == visited;
    assert [Condition(c)][1..] == [];
    assert visited + [] == visited;
  }

  /**
   * `if a {} else if b {} else if d {} else {}`: the middle link has no `else`
   * block of its own (it goes on with `else if`), so the first link is
   * reported although the chain ends in `else`.
   */
  lemma ThreeLinkChainWithElse(d: If, b: If, c: If)
    requires d.elseif.None? && d.falseStatements.Else?
    requires b.elseif == Some(d) && b.falseStatements.NoElse?
    requires c.elseif == Some(b)
    ensures ChainWarnings(c) == [Warning(Message, c.id)]
  {
    assert ChainWarnings(d) == [];
    assert ChainWarnings(b) == [];
  }

  // ---------------------------------------------------------------------------
  // The detector
  // ---------------------------------------------------------------------------

  class MissingElseDetector {
    var warnings: seq<Warning>

    constructor()
      ensures warnings == []
    {
      warnings := [];
    }

    /** `check`: every entry's statements are walked; all warnings so far are returned. */
    method Check(entries: seq<Stmt>) returns (r: seq<Warning>)
      modifies this
      ensures warnings == old(warnings) + EntryWarnings(entries)
      ensures r == warnings
    {
      CheckConditionStatements(StatementsInAll(entries));
      r := warnings;
    }

    /** `checkConditionStatements`: only conditional statements start a check. */
    method CheckConditionStatements(visited: seq<Stmt>)
      modifies this
      ensures warnings == old(warnings) + VisitedWarnings(visited)
    {
      for i := 0 to |visited|
        invariant warnings == old(warnings) + VisitedWarnings(visited[..i])
      {
        VisitedWarningsStep(old(warnings), visited, i, warnings);
        var stmt := visited[i];
        if stmt.Condition? {
          CheckConditionStatement(stmt.cond);
        }
      }
      assert visited[..|visited|] == visited;
    }

    /** `checkConditionStatement`: report this link if needed, then go on down the chain. */
    method CheckConditionStatement(condStmt: If)
      modifies this
      decreases condStmt
      ensures warnings == old(warnings) + ChainWarnings(condStmt)
    {
      if NextLinkLacksElse(condStmt) {
        warnings := warnings + [Warning(Message, condStmt.id)];
      }
      if condStmt.elseif.Some? {
        CheckConditionStatement(condStmt.elseif.value);
      }
    }
  }
}
