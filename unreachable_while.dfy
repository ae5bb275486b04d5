/**
 * The unreachable-`while` detector (`unreachableWhileStatements.ts`): a
 * `while` statement whose condition is the literal `false` and whose body is
 * not empty is reported. Other loop kinds are never examined.
 */
module UnreachableWhile {
  import opened Ast
  import opened Warnings

  const Message := "While statement is not reachable"

  /** `unreachableWhileUsage`: the condition is a boolean literal, `false`, and the body holds statements. */
  predicate UnreachableWhileUsage(stmt: Stmt)
    requires stmt.While?
  {
    if !stmt.condition.Boolean? then false
    else !stmt.condition.boolValue && |stmt.statements| != 0
  }

  /** The warnings for the visited statements, in order: `while` statements only. */
  function WhileWarnings(visited: seq<Stmt>): seq<Warning>
  {
    if visited == [] then []
    else
      var last := visited[|visited| - 1];
      WhileWarnings(visited[..|visited| - 1])
      + (if last.While? && UnreachableWhileUsage(last) then [Warning(Message, last.id)] else [])
  }

  /** The warnings of a program's entries, visited in the walk's order. */
  function EntryWarnings(entries: seq<Stmt>): seq<Warning>
  {
    WhileWarnings(StatementsInAll(entries))
  }

  // ---------------------------------------------------------------------------
  // Which loops are reported
  // ---------------------------------------------------------------------------

  /**
   * A condition other than a boolean literal is never reported, whatever it
   * computes; `while (true) { ... }` is never reported; `while (false) {}` is
   * not, as there is nothing to reach; `while (false)` with a body is.
   */
  lemma WhichWhilesAreUnreachable(stmt: Stmt)
    requires stmt.While?
    ensures !stmt.condition.Boolean? ==> !UnreachableWhileUsage(stmt)
    ensures stmt.condition == Boolean(true) ==> !UnreachableWhileUsage(stmt)
    ensures stmt.statements == [] ==> !UnreachableWhileUsage(stmt)
    ensures stmt.condition == Boolean(false) && stmt.statements != [] ==> UnreachableWhileUsage(stmt)
  {
  }

  /**
   * A warning is reported at a visited statement exactly when it is a
   * `while (false)` with a body; `until`, `repeat` and `foreach` never are.
   */
  lemma {:induction false} WhileWarningsExact(visited: seq<Stmt>, w: Warning)
    ensures w in WhileWarnings(visited) <==>
              exists s :: s in visited && s.While? && s.condition == Boolean(false) && s.statements != []
                          && w == Warning(Message, s.id)
  {
    if visited != [] {
      var init := visited[..|visited| - 1];
      WhileWarningsExact(init, w);
      assert visited == init + [visited[|visited| - 1]];
    }
  }

  /** At most one warning per visited statement, and none without a `while` among them. */
  lemma {:induction false} WhileWarningsCount(visited: seq<Stmt>)
    ensures |WhileWarnings(visited)| <= |visited|
    ensures (forall i :: 0 <= i < |visited| ==> !visited[i].While?) ==> WhileWarnings(visited) == []
  {
    if visited != [] {
      WhileWarningsCount(visited[..|visited| - 1]);
    }
  }

  // ---------------------------------------------------------------------------
  // The detector
  // ---------------------------------------------------------------------------

  class UnreachableWhileStatements {
    var warnings: seq<Warning>

    constructor()
      ensures warnings == []
    {
      warnings := [];
    }

    /** `check`: walks every entry and reports each unreachable `while`; returns every warning so far. */
    method Check(entries: seq<Stmt>) returns (r: seq<Warning>)
      modifies this
      ensures warnings == old(warnings) + EntryWarnings(entries)
      ensures r == warnings
    {
      var visited := StatementsInAll(entries);
      for i := 0 to |visited|
        invariant warnings == old(warnings) + WhileWarnings(visited[..i])
      {
        assert visited[..i + 1][..i] == visited[..i];
        var stmt := visited[i];
        if stmt.While? && UnreachableWhileUsage(stmt) {
          warnings := warnings + [Warning(Message, stmt.id)];
        }
      }
      assert visited[..|visited|] == visited;
      r := warnings;
    }
  }
}
