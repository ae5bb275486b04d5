/**
 * The readonly-field detector (`readonlyFieldIdentifier.ts`): for every
 * contract, the names of its fields minus the names the direct assignments of
 * its methods write, each such field reported once per declaration.
 *
 * The detector recognises a written field by slicing the assignment's source
 * text after dropping a leading `this.`; Tact writes fields as `self.x`, and
 * that text is kept, so `self.x = 1;` writes the name `self.x` (see
 * `SelfAssignmentIsNotRecognised`). The message is the one the code emits.
 */
module ReadonlyFields {
  import opened Ast
  import opened Text
  import opened Warnings

  /** A field declaration: its name and the node whose location a warning carries. */
  datatype FieldDecl = FieldDecl(id: NodeId, name: string)

  /**
   * A contract as the compilation unit presents it: its fields
   * (`getContractFields`) and the statement lists of its methods
   * (`getMethods` and `getFunction(...).statements`).
   */
  datatype Contract = Contract(id: NodeId, fields: seq<FieldDecl>, methods: seq<seq<Stmt>>)

  /** `tryExtractNameFromAssignment`: the shared text heuristic with the `this.` receiver. */
  function TryExtractNameFromAssignment(s: Stmt): string
  {
    AssignedName("this.", s)
  }

  predicate IsAssignment(s: Stmt)
  {
    s.Assign? || s.AugmentedAssign?
  }

  /** The assignments a statement list holds at its top level, in order. */
  function DirectAssignments(body: seq<Stmt>): (r: seq<Stmt>)
    ensures forall s :: s in r <==> s in body && IsAssignment(s)
  {
    if body == [] then []
    else
      var last := body[|body| - 1];
      DirectAssignments(body[..|body| - 1]) + (if IsAssignment(last) then [last] else [])
  }

  /** The assignments of every method, method by method. */
  function Assignments(methods: seq<seq<Stmt>>): seq<Stmt>
  {
    if methods == [] then []
    else Assignments(methods[..|methods| - 1]) + DirectAssignments(methods[|methods| - 1])
  }

  /**
   * Only statements that stand directly in a method's statement list are
   * collected: an assignment nested in an `if` or a loop is not.
   */
  lemma {:induction false} AssignmentsAreDirect(methods: seq<seq<Stmt>>, s: Stmt)
    ensures s in Assignments(methods) <==> IsAssignment(s) && exists i :: 0 <= i < |methods| && s in methods[i]
  {
    if methods != [] {
      var init, last := methods[..|methods| - 1], methods[|methods| - 1];
      AssignmentsAreDirect(init, s);
      assert Assignments(methods) == Assignments(init) + DirectAssignments(last);
      if s in Assignments(methods) {
        if s in Assignments(init) {
          var i :| 0 <= i < |init| && s in init[i];
          assert methods[i] == init[i];
        } else {
          assert s in methods[|methods| - 1];
        }
      }
      if IsAssignment(s) && exists i :: 0 <= i < |methods| && s in methods[i] {
        var i :| 0 <= i < |methods| && s in methods[i];
        if i < |init| {
          assert init[i] == methods[i];
        }
      }
    }
  }

  function FieldNames(fields: seq<FieldDecl>): set<string>
  {
    set f | f in fields :: f.name
  }

  function AssignedNames(assignments: seq<Stmt>): set<string>
  {
    set s | s in assignments :: TryExtractNameFromAssignment(s)
  }

  /** The `fieldNamesNotUsed` set of a contract once its assignments are processed. */
  function Unmodified(c: Contract): set<string>
  {
    FieldNames(c.fields) - AssignedNames(Assignments(c.methods))
  }

  /** The warning for one field. */
  function FieldWarning(f: FieldDecl): Warning
  {
    Warning("Field " + f.name + " should have a more meaningful name", f.id)
  }

  /** The warnings for the fields whose names are in `notUsed`, in declaration order. */
  function FieldsWarned(fields: seq<FieldDecl>, notUsed: set<string>): seq<Warning>
  {
    if fields == [] then []
    else
      var last := fields[|fields| - 1];
      FieldsWarned(fields[..|fields| - 1], notUsed) + (if last.name in notUsed then [FieldWarning(last)] else [])
  }

  function ContractWarnings(c: Contract): seq<Warning>
  {
    FieldsWarned(c.fields, Unmodified(c))
  }

  /** The warnings of the whole unit, contract by contract. */
  function UnitWarnings(cu: seq<Contract>): seq<Warning>
  {
    if cu == [] then [] else UnitWarnings(cu[..|cu| - 1]) + ContractWarnings(cu[|cu| - 1])
  }

  /** One more contract adds its own warnings at the end of the report. */
  lemma UnitWarningsStep(base: seq<Warning>, cu: seq<Contract>, k: nat, reported: seq<Warning>)
    requires k < |cu|
    requires reported == base + UnitWarnings(cu[..k])
    ensures reported + ContractWarnings(cu[k]) == base + UnitWarnings(cu[..k + 1])
  {
    var prefix := cu[..k + 1];
    assert prefix[..|prefix| - 1] == cu[..k];
    AppendToReport(base, UnitWarnings(cu[..k]), ContractWarnings(cu[k]));
  }

  // ---------------------------------------------------------------------------
  // Properties of the report
  // ---------------------------------------------------------------------------

  /** Different field names give different messages. */
  lemma FieldWarningInjective(f: FieldDecl, g: FieldDecl)
    requires FieldWarning(f) == FieldWarning(g)
    ensures f == g
  {
    var tail := " should have a more meaningful name";
    var m := FieldWarning(f).message;
    assert m == "Field " + f.name + tail == "Field " + g.name + tail;
    assert |f.name| == |g.name|;
    assert f.name == m[6..6 + |f.name|] == g.name;
  }

  /** Every warning names a declared field whose name no direct assignment writes. */
  lemma {:induction false} FieldsWarnedSound(fields: seq<FieldDecl>, notUsed: set<string>, w: Warning)
    requires w in FieldsWarned(fields, notUsed)
    ensures exists f :: f in fields && f.name in notUsed && w == FieldWarning(f)
  {
    var init, last := fields[..|fields| - 1], fields[|fields| - 1];
    if w in FieldsWarned(init, notUsed) {
      FieldsWarnedSound(init, notUsed, w);
      var f :| f in init && f.name in notUsed && w == FieldWarning(f);
      assert f in fields;
    } else {
      assert last in fields;
    }
  }

  /** Every declared field whose name is in `notUsed` is warned about. */
  lemma {:induction false} FieldsWarnedComplete(fields: seq<FieldDecl>, notUsed: set<string>, f: FieldDecl)
    requires f in fields && f.name in notUsed
    ensures FieldWarning(f) in FieldsWarned(fields, notUsed)
  {
    var init := fields[..|fields| - 1];
    if f != fields[|fields| - 1] {
      assert f in init;
      FieldsWarnedComplete(init, notUsed, f);
    }
  }

  /** At most one warning per declared field. */
  lemma {:induction false} FieldsWarnedCount(fields: seq<FieldDecl>, notUsed: set<string>)
    ensures |FieldsWarned(fields, notUsed)| <= |fields|
    ensures notUsed * FieldNames(fields) == {} ==> FieldsWarned(fields, notUsed) == []
  {
    if fields != [] {
      var init := fields[..|fields| - 1];
      FieldsWarnedCount(init, notUsed);
      assert fields[|fields| - 1].name in FieldNames(fields);
      assert FieldNames(init) <= FieldNames(fields);
      if notUsed * FieldNames(fields) == {} {
        var n := fields[|fields| - 1].name;
        assert n !in notUsed * FieldNames(fields);
      }
    }
  }

  /**
   * A field is reported exactly when no direct assignment of the contract's
   * methods writes its name.
   */
  lemma WarnedIffUnmodified(c: Contract, f: FieldDecl)
    requires f in c.fields
    ensures FieldWarning(f) in ContractWarnings(c) <==> f.name !in AssignedNames(Assignments(c.methods))
  {
    if f.name !in AssignedNames(Assignments(c.methods)) {
      FieldsWarnedComplete(c.fields, Unmodified(c), f);
    }
    if FieldWarning(f) in ContractWarnings(c) {
      FieldsWarnedSound(c.fields, Unmodified(c), FieldWarning(f));
      var g :| g in c.fields && g.name in Unmodified(c) && FieldWarning(f) == FieldWarning(g);
      FieldWarningInjective(f, g);
    }
  }

  /** Every warning of a contract is about one of its fields that nothing writes. */
  lemma ContractWarningsSound(c: Contract, w: Warning)
    requires w in ContractWarnings(c)
    ensures exists f :: f in c.fields && f.name !in AssignedNames(Assignments(c.methods)) && w == FieldWarning(f)
  {
    FieldsWarnedSound(c.fields, Unmodified(c), w);
  }

  /** A contract reports at most one warning per field, and none when every field is written. */
  lemma ContractWarningsCount(c: Contract)
    ensures |ContractWarnings(c)| <= |c.fields|
    ensures FieldNames(c.fields) <= AssignedNames(Assignments(c.methods)) ==> ContractWarnings(c) == []
  {
    FieldsWarnedCount(c.fields, Unmodified(c));
  }

  // ---------------------------------------------------------------------------
  // The detector
  // ---------------------------------------------------------------------------

  class ReadonlyFieldIdentifier {
    var warnings: seq<Warning>

    constructor()
      ensures warnings == []
    {
      warnings := [];
    }

    /** `check`: runs `checkFields` and returns every warning reported so far. */
    method Check(cu: seq<Contract>) returns (r: seq<Warning>)
      modifies this
      ensures warnings == old(warnings) + UnitWarnings(cu)
      ensures r == warnings
    {
      CheckFields(cu);
      r := warnings;
    }

    /** `checkFields`: contract by contract, the fields nothing writes are reported. */
    method CheckFields(cu: seq<Contract>)
      modifies this
      ensures warnings == old(warnings) + UnitWarnings(cu)
    {
      var reported := warnings;
      for k := 0 to |cu|
        invariant reported == old(warnings) + UnitWarnings(cu[..k])
      {
        var found := CheckContract(cu[k]);
        UnitWarningsStep(old(warnings), cu, k, reported);
        reported := reported + found;
      }
      assert cu[..|cu|] == cu;
      warnings := reported;
    }
  }

  /** One contract: its assignments, the names they leave unwritten, a warning per such field. */
  method CheckContract(c: Contract) returns (found: seq<Warning>)
    ensures found == ContractWarnings(c)
  {
    var assignments := CollectAssignments(c.methods);
    var notUsed := UnmodifiedFieldNames(c.fields, assignments);
    found := [];
    for j := 0 to |c.fields|
      invariant found == FieldsWarned(c.fields[..j], notUsed)
    {
      assert c.fields[..j + 1][..j] == c.fields[..j];
      var field := c.fields[j];
      if field.name in notUsed {
        found := found + [FieldWarning(field)];
      }
    }
    assert c.fields[..|c.fields|] == c.fields;
  }

  /** The statements of kind assign or augmented assign, method after method. */
  method CollectAssignments(methods: seq<seq<Stmt>>) returns (assignments: seq<Stmt>)
    ensures assignments == Assignments(methods)
  {
    assignments := [];
    for i := 0 to |methods|
      invariant assignments == Assignments(methods[..i])
    {
      var body := methods[i];
      ghost var before := assignments;
      for j := 0 to |body|
        invariant assignments == before + DirectAssignments(body[..j])
      {
        DirectAssignmentsStep(before, body, j, assignments);
        if IsAssignment(body[j]) {
          assignments := assignments + [body[j]];
        }
      }
      assert body[..|body|] == body;
      AssignmentsStep(methods, i, before);
    }
    assert methods[..|methods|] == methods;
  }

  /** One more statement of a method body: kept at the end when it is an assignment. */
  lemma DirectAssignmentsStep(before: seq<Stmt>, body: seq<Stmt>, j: nat, found: seq<Stmt>)
    requires j < |body|
    requires found == before + DirectAssignments(body[..j])
    ensures IsAssignment(body[j]) ==> found + [body[j]] == before + DirectAssignments(body[..j + 1])
    ensures !IsAssignment(body[j]) ==> found == before + DirectAssignments(body[..j + 1])
  {
    var prefix := body[..j + 1];
    assert prefix[..|prefix| - 1] == body[..j];
    assert (before + DirectAssignments(body[..j])) + [body[j]] == before + (DirectAssignments(body[..j]) + [body[j]]);
  }

  /** One more method: its direct assignments follow those of the methods before it. */
  lemma AssignmentsStep(methods: seq<seq<Stmt>>, i: nat, found: seq<Stmt>)
    requires i < |methods|
    requires found == Assignments(methods[..i])
    ensures found + DirectAssignments(methods[i]) == Assignments(methods[..i + 1])
  {
    var prefix := methods[..i + 1];
    assert prefix[..|prefix| - 1] == methods[..i];
  }

  /** The declared names, then every name an assignment writes deleted from them. */
  method UnmodifiedFieldNames(fields: seq<FieldDecl>, assignments: seq<Stmt>) returns (notUsed: set<string>)
    ensures notUsed == FieldNames(fields) - AssignedNames(assignments)
  {
    notUsed := {};
    for j := 0 to |fields|
      invariant notUsed == FieldNames(fields[..j])
    {
      assert FieldNames(fields[..j + 1]) == FieldNames(fields[..j]) + {fields[j].name} by {
        assert fields[..j + 1] == fields[..j] + [fields[j]];
      }
      notUsed := notUsed + {fields[j].name};
    }
    assert fields[..|fields|] == fields;
    for k := 0 to |assignments|
      invariant notUsed == FieldNames(fields) - AssignedNames(assignments[..k])
    {
      var name := TryExtractNameFromAssignment(assignments[k]);
      assert AssignedNames(assignments[..k + 1]) == AssignedNames(assignments[..k]) + {name} by {
        assert assignments[..k + 1] == assignments[..k] + [assignments[k]];
      }
      if name in notUsed {
        notUsed := notUsed - {name};
      }
    }
    assert assignments[..|assignments|] == assignments;
  }

  // ---------------------------------------------------------------------------
  // The receiver the heuristic strips
  // ---------------------------------------------------------------------------

  /** With one field and one assignment, the field is reported unless the assignment writes its name. */
  lemma OneFieldOneAssignment(c: Contract)
    requires |c.fields| == 1 && |c.methods| == 1 && |c.methods[0]| == 1 && IsAssignment(c.methods[0][0])
    ensures TryExtractNameFromAssignment(c.methods[0][0]) == c.fields[0].name ==> ContractWarnings(c) == []
    ensures TryExtractNameFromAssignment(c.methods[0][0]) != c.fields[0].name ==> ContractWarnings(c) == [FieldWarning(c.fields[0])]
  {
    var s, f := c.methods[0][0], c.fields[0];
    SingleAssignment(c.methods);
    SingleFieldWarned(c.fields, Unmodified(c));
    assert f in c.fields;
    assert s in Assignments(c.methods);
    assert f.name in AssignedNames(Assignments(c.methods)) <==> TryExtractNameFromAssignment(s) == f.name;
  }

  /** A single method made of a single assignment gives that assignment alone. */
  lemma SingleAssignment(methods: seq<seq<Stmt>>)
    requires |methods| == 1 && |methods[0]| == 1 && IsAssignment(methods[0][0])
    ensures Assignments(methods) == [methods[0][0]]
  {
    assert methods[..|methods| - 1] == [];
    assert methods[0][..|methods[0]| - 1] == [];
    assert DirectAssignments(methods[0]) == [methods[0][0]];
    assert Assignments(methods) == Assignments([]) + DirectAssignments(methods[0]);
  }

  /** A single declared field is warned about exactly when its name is unused. */
  lemma SingleFieldWarned(fields: seq<FieldDecl>, notUsed: set<string>)
    requires |fields| == 1
    ensures FieldsWarned(fields, notUsed) == if fields[0].name in notUsed then [FieldWarning(fields[0])] else []
  {
    assert fields[..|fields| - 1] == [];
    assert FieldsWarned([], notUsed) == [];
  }

  /** `this.count = 1;` writes `count`. */
  lemma ThisAssignmentName(s: Stmt)
    requires s == Assign(3, "this.count = 1;", FieldAccess(Id("self"), "count"), Number(1))
    ensures TryExtractNameFromAssignment(s) == "count"
  {
    assert s.contents == "this." + ("count" + " " + "=" + " 1;");
    AssignedNameOfPlain("this.", s, "count", " ", " 1;");
  }

  /** `self.count = 1;` keeps its receiver: it writes `self.count`. */
  lemma SelfAssignmentName(s: Stmt)
    requires s == Assign(3, "self.count = 1;", FieldAccess(Id("self"), "count"), Number(1))
    ensures TryExtractNameFromAssignment(s) == "self.count"
  {
    assert s.contents == "self.count" + " " + "=" + " 1;";
    assert s.contents[0] != "this."[0];
    AssignedNameOfPlainWithoutReceiver("this.", s, "self.count", " ", " 1;");
  }

  /** A field written through `this.` is not reported. */
  lemma ThisAssignmentIsRecognised(c: Contract)
    requires c.fields == [FieldDecl(2, "count")]
    requires c.methods == [[Assign(3, "this.count = 1;", FieldAccess(Id("self"), "count"), Number(1))]]
    ensures ContractWarnings(c) == []
  {
    ThisAssignmentName(c.methods[0][0]);
    OneFieldOneAssignment(c);
  }

  /**
   * `self.count = 1;`, the form Tact uses, writes the name `self.count`, so a
   * field that the contract does write is reported all the same.
   */
  lemma SelfAssignmentIsNotRecognised(c: Contract)
    requires c.fields == [FieldDecl(2, "count")]
    requires c.methods == [[Assign(3, "self.count = 1;", FieldAccess(Id("self"), "count"), Number(1))]]
    ensures ContractWarnings(c) == [FieldWarning(FieldDecl(2, "count"))]
  {
    SelfAssignmentName(c.methods[0][0]);
    OneFieldOneAssignment(c);
  }
}
