/**
 * The circuits of the repository's tests, built gate by gate with the
 * LogicGate constructor and queried as the tests query them.
 */
module Scenarios {

  import opened Wrappers
  import opened Gates
  import opened Variables
  import opened Graph
  import opened GraphFacts
  import opened Wiring

  /** A network of free variables only is acyclic. */
  lemma NoGatesAcyclic(st: State)
    requires st.gates == []
    requires forall v :: 0 <= v < |st.vars| ==> st.vars[v].calculatedBy == None
    ensures Acyclic(st)
  {
    assert RankOk(st, seq(|st.vars|, _ => 0), []);
  }

  /** x1 = true, x2 = false, x3 = true (variables 0 to 2) and w1, w2, y1, y2 without values (3 to 6). */
  function ValuesInputs(): State
  {
    State([Variable("x1", Some(true), None), Variable("x2", Some(false), None), Variable("x3", Some(true), None),
           Variable("w1", None, None), Variable("w2", None, None), Variable("y1", None, None), Variable("y2", None, None)], [])
  }

  /** The network after w1 = AND(x1,x2). */
  function Values1(): State
  {
    State([Variable("x1", Some(true), None), Variable("x2", Some(false), None), Variable("x3", Some(true), None),
           Variable("w1", None, Some(0)), Variable("w2", None, None), Variable("y1", None, None), Variable("y2", None, None)],
          [Gate(And, 3, [0, 1])])
  }

  /** The network after w1 = AND(x1,x2), w2 = OR(w1,x3). */
  function Values2(): State
  {
    State([Variable("x1", Some(true), None), Variable("x2", Some(false), None), Variable("x3", Some(true), None),
           Variable("w1", None, Some(0)), Variable("w2", None, Some(1)), Variable("y1", None, None), Variable("y2", None, None)],
          [Gate(And, 3, [0, 1]), Gate(Or, 4, [3, 2])])
  }

  /** The network after w1 = AND(x1,x2), w2 = OR(w1,x3), y1 = NOT(w2). */
  function Values3(): State
  {
    State([Variable("x1", Some(true), None), Variable("x2", Some(false), None), Variable("x3", Some(true), None),
           Variable("w1", None, Some(0)), Variable("w2", None, Some(1)), Variable("y1", None, Some(2)), Variable("y2", None, None)],
          [Gate(And, 3, [0, 1]), Gate(Or, 4, [3, 2]), Gate(Not, 5, [4])])
  }

  /** The network after w1 = AND(x1,x2), w2 = OR(w1,x3), y1 = NOT(w2), y2 = AND(x1,x3). */
  function ValuesCircuit(): State
  {
    State([Variable("x1", Some(true), None), Variable("x2", Some(false), None), Variable("x3", Some(true), None),
           Variable("w1", None, Some(0)), Variable("w2", None, Some(1)), Variable("y1", None, Some(2)), Variable("y2", None, Some(3))],
          [Gate(And, 3, [0, 1]), Gate(Or, 4, [3, 2]), Gate(Not, 5, [4]), Gate(And, 6, [0, 2])])
  }

  lemma BuildW1()
    ensures GateArgs(ValuesInputs(), And, 3, [0, 1]) && Construct(ValuesInputs(), And, 3, [0, 1]) == Built(Values1(), 0)
    ensures Acyclic(Values1())
  {
    NoGatesAcyclic(ValuesInputs());
    FreshOutputBuilds(ValuesInputs(), And, 3, [0, 1]);
    assert Wired(ValuesInputs(), And, 3, [0, 1]) == Values1();
  }

  lemma BuildW2()
    ensures GateArgs(Values1(), Or, 4, [3, 2]) && Construct(Values1(), Or, 4, [3, 2]) == Built(Values2(), 1)
    ensures Acyclic(Values2())
  {
    BuildW1();
    FreshOutputBuilds(Values1(), Or, 4, [3, 2]);
    assert Wired(Values1(), Or, 4, [3, 2]) == Values2();
  }

  lemma BuildY1()
    ensures GateArgs(Values2(), Not, 5, [4]) && Construct(Values2(), Not, 5, [4]) == Built(Values3(), 2)
    ensures Acyclic(Values3())
  {
    BuildW2();
    FreshOutputBuilds(Values2(), Not, 5, [4]);
    assert Wired(Values2(), Not, 5, [4]) == Values3();
  }

  lemma BuildY2()
    ensures GateArgs(Values3(), And, 6, [0, 2]) && Construct(Values3(), And, 6, [0, 2]) == Built(ValuesCircuit(), 3)
    ensures Acyclic(ValuesCircuit())
  {
    BuildY1();
    FreshOutputBuilds(Values3(), And, 6, [0, 2]);
    assert Wired(Values3(), And, 6, [0, 2]) == ValuesCircuit();
  }

  /** testValues: every variable of the circuit has the value the test expects. */
  lemma ValuesScenario()
    ensures var st := ValuesCircuit();
      && Acyclic(st)
      && Evaluable(st, 0) && Value(st, 0) == true
      && Evaluable(st, 1) && Value(st, 1) == false
      && Evaluable(st, 2) && Value(st, 2) == true
      && Evaluable(st, 3) && Value(st, 3) == false
      && Evaluable(st, 4) && Value(st, 4) == true
      && Evaluable(st, 5) && Value(st, 5) == false
      && Evaluable(st, 6) && Value(st, 6) == true
  {
    var st := ValuesCircuit();
    BuildY2();
    ValueOfFree(st, 0);
    ValueOfFree(st, 1);
    ValueOfFree(st, 2);
    AndValue(st, 3);
    OrValue(st, 4);
    NotValue(st, 5);
    AndValue(st, 6);
  }

  /** testValues, last step: after x3.setValue(false), y1 = NOT(OR(AND(x1,x2),x3)) becomes true. */
  lemma ValuesAfterSetValue()
    ensures var st := WithValue(ValuesCircuit(), 2, false);
      && Acyclic(st)
      && Evaluable(st, 3) && Value(st, 3) == false
      && Evaluable(st, 4) && Value(st, 4) == false
      && Evaluable(st, 5) && Value(st, 5) == true
  {
    BuildY2();
    var st := WithValue(ValuesCircuit(), 2, false);
    WithValueAcyclic(ValuesCircuit(), 2, false);
    ValueOfFree(st, 0);
    ValueOfFree(st, 1);
    ValueOfFree(st, 2);
    AndValue(st, 3);
    OrValue(st, 4);
    NotValue(st, 5);
  }

  // ---------------------------------------------------------------------------
  // testLogicVariable and testEquals

  /** testLogicVariable: x1 = false reads false, and true after setValue(true). */
  lemma LogicVariableScenario()
    ensures var st := State([Variable("x1", Some(false), None)], []);
      && Acyclic(st) && st.vars[0].name == "x1"
      && Evaluable(st, 0) && Value(st, 0) == false
      && var st' := WithValue(st, 0, true); Acyclic(st') && Evaluable(st', 0) && Value(st', 0) == true
  {
    var st := State([Variable("x1", Some(false), None)], []);
    NoGatesAcyclic(st);
    ValueOfFree(st, 0);
    SetValueThenGet(st, 0, true);
  }

  /** testEquals: two distinct unset variables, both named y1, are equal. */
  lemma EqualsScenario()
    ensures var st := State([Variable("y1", None, None), Variable("y1", None, None)], []);
      Equals(st.vars[0], st.vars[1]) && Equals(st.vars[1], st.vars[0])
  {
    UnsetSameNameEqual("y1", None, None);
  }

  // ---------------------------------------------------------------------------
  // testLogicGates and testSymbols

  function GatesInputs(): State
  {
    State([Variable("x1", Some(false), None), Variable("x2", Some(false), None), Variable("x3", Some(false), None),
           Variable("w1", None, None), Variable("w2", None, None), Variable("y1", None, None)], [])
  }

  function Gates1(): State { Wired(GatesInputs(), And, 3, [0, 1]) }
  function Gates2(): State { Wired(Gates1(), Or, 4, [3, 2]) }
  function Gates3(): State { Wired(Gates2(), Not, 5, [4]) }

  lemma BuildP1()
    ensures GateArgs(GatesInputs(), And, 3, [0, 1]) && Construct(GatesInputs(), And, 3, [0, 1]) == Built(Gates1(), 0)
    ensures Acyclic(Gates1())
  {
    NoGatesAcyclic(GatesInputs());
    FreshOutputBuilds(GatesInputs(), And, 3, [0, 1]);
  }

  lemma BuildP2()
    ensures GateArgs(Gates1(), Or, 4, [3, 2]) && Construct(Gates1(), Or, 4, [3, 2]) == Built(Gates2(), 1)
    ensures Acyclic(Gates2())
  {
    BuildP1();
    FreshOutputBuilds(Gates1(), Or, 4, [3, 2]);
  }

  lemma BuildP3()
    ensures GateArgs(Gates2(), Not, 5, [4]) && Construct(Gates2(), Not, 5, [4]) == Built(Gates3(), 2)
    ensures Acyclic(Gates3())
  {
    BuildP2();
    FreshOutputBuilds(Gates2(), Not, 5, [4]);
  }

  /**
   * testLogicGates and testSymbols: p1 = AND(w1; x1, x2), p2 = OR(w2; w1, x3)
   * and p3 = NOT(y1; w2) keep their output, their inputs in order and their
   * symbol once all three exist.
   */
  lemma LogicGatesScenario()
    ensures var st := Gates3();
      && |st.gates| == 3
      && st.gates[0].output == 3 && st.gates[0].inputs == [0, 1] && Symbol(st.gates[0].kind) == "AND"
      && st.gates[1].output == 4 && st.gates[1].inputs == [3, 2] && Symbol(st.gates[1].kind) == "OR"
      && st.gates[2].output == 5 && st.gates[2].inputs == [4] && Symbol(st.gates[2].kind) == "NOT"
  {
    BuildP1();
    BuildP2();
    BuildP3();
    ConstructRecordsWiring(GatesInputs(), And, 3, [0, 1]);
    ConstructRecordsWiring(Gates1(), Or, 4, [3, 2]);
    ConstructRecordsWiring(Gates2(), Not, 5, [4]);
  }

  // ---------------------------------------------------------------------------
  // testCalculatedBy

  /** testCalculatedBy: y1 = AND(x1, x2) is calculated by the new gate; x1 and x2 by none. */
  lemma CalculatedByScenario()
    ensures var st := State([Variable("x1", Some(false), None), Variable("x2", Some(false), None), Variable("y1", None, None)], []);
      && GateArgs(st, And, 2, [0, 1])
      && var r := Construct(st, And, 2, [0, 1]);
      && r.Built?
      && r.next.vars[2].calculatedBy == Some(r.gate)
      && r.next.vars[0].calculatedBy == None
      && r.next.vars[1].calculatedBy == None
  {
    var st := State([Variable("x1", Some(false), None), Variable("x2", Some(false), None), Variable("y1", None, None)], []);
    NoGatesAcyclic(st);
    FreshOutputBuilds(st, And, 2, [0, 1]);
    ConstructRecordsWiring(st, And, 2, [0, 1]);
  }

  // ---------------------------------------------------------------------------
  // testColision and testCycles

  function CollisionInputs(): State
  {
    State([Variable("x1", Some(false), None), Variable("x2", Some(false), None), Variable("x3", Some(false), None),
           Variable("x4", Some(false), None), Variable("y1", None, None)], [])
  }

  /** testColision: after y1 = AND(x1, x2), a second gate OR(y1; x3, x4) is a collision. */
  lemma CollisionScenario()
    ensures GateArgs(CollisionInputs(), And, 4, [0, 1])
    ensures var r := Construct(CollisionInputs(), And, 4, [0, 1]);
      && r.Built? && GateArgs(r.next, Or, 4, [2, 3]) && Construct(r.next, Or, 4, [2, 3]) == Failed(Collision)
  {
    NoGatesAcyclic(CollisionInputs());
    FreshOutputBuilds(CollisionInputs(), And, 4, [0, 1]);
  }

  function CycleInputs(): State
  {
    State([Variable("w1", None, None), Variable("w2", None, None), Variable("w3", None, None)], [])
  }

  /** testCycles: after w3 = AND(w1, w2), the gate NOT(w2; w3) would close a cycle. */
  lemma CycleScenario()
    ensures GateArgs(CycleInputs(), And, 2, [0, 1])
    ensures var r := Construct(CycleInputs(), And, 2, [0, 1]);
      && r.Built? && GateArgs(r.next, Not, 1, [2]) && Construct(r.next, Not, 1, [2]) == Failed(Cycle)
  {
    NoGatesAcyclic(CycleInputs());
    FreshOutputBuilds(CycleInputs(), And, 2, [0, 1]);
    var st := Construct(CycleInputs(), And, 2, [0, 1]).next;
    GateDependsOnAnyInput(st, 0, st.vars[1]);
    assert Equals(st.vars[st.gates[0].inputs[1]], st.vars[1]);
    assert Clashes(st, [2][0], 1);
  }

  /** The commented-out case of testCycles: OR(w1; w1, w5) has its own output as an input. */
  lemma OwnCycleScenario()
    ensures var st := State([Variable("w1", None, None), Variable("w5", None, None)], []);
      GateArgs(st, Or, 0, [0, 1]) && Construct(st, Or, 0, [0, 1]) == Failed(Cycle)
  {
    var st := State([Variable("w1", None, None), Variable("w5", None, None)], []);
    NoGatesAcyclic(st);
    assert Clashes(st, [0, 1][0], 0);
  }

  /**
   * The cycle test compares by equals, not by identity: a gate whose input is
   * a different unset variable with its output's name is refused as a cycle,
   * although no wire joins the two.
   */
  lemma SameNameIsCycle()
    ensures var st := State([Variable("y", None, None), Variable("y", None, None)], []);
      && GateArgs(st, Not, 0, [1]) && !Upstream(st, 1, 0)
      && Construct(st, Not, 0, [1]) == Failed(Cycle)
  {
    var st := State([Variable("y", None, None), Variable("y", None, None)], []);
    NoGatesAcyclic(st);
    assert Clashes(st, [1][0], 0);
  }

  /** Variables z, o, a (also named z) and b = true, all free. */
  function SelfDependInputs(): State
  {
    State([Variable("z", None, None), Variable("o", None, None), Variable("z", None, None), Variable("b", Some(true), None)], [])
  }

  /** The network after z = NOT(o). */
  function SelfDepend1(): State
  {
    State([Variable("z", None, Some(0)), Variable("o", None, None), Variable("z", None, None), Variable("b", Some(true), None)],
          [Gate(Not, 0, [1])])
  }

  /** The network after z = NOT(o) and o = AND(a, b). */
  function SelfDepend2(): State
  {
    State([Variable("z", None, Some(0)), Variable("o", None, Some(1)), Variable("z", None, None), Variable("b", Some(true), None)],
          [Gate(Not, 0, [1]), Gate(And, 1, [2, 3])])
  }

  lemma BuildSelfDepend1()
    ensures GateArgs(SelfDependInputs(), Not, 0, [1]) && Construct(SelfDependInputs(), Not, 0, [1]) == Built(SelfDepend1(), 0)
    ensures Acyclic(SelfDepend1())
  {
    NoGatesAcyclic(SelfDependInputs());
    assert !Clashes(SelfDependInputs(), 1, 0);
    assert Wired(SelfDependInputs(), Not, 0, [1]) == SelfDepend1();
  }

  lemma BuildSelfDepend2()
    ensures GateArgs(SelfDepend1(), And, 1, [2, 3]) && Construct(SelfDepend1(), And, 1, [2, 3]) == Built(SelfDepend2(), 1)
    ensures Acyclic(SelfDepend2())
  {
    BuildSelfDepend1();
    assert !Clashes(SelfDepend1(), 2, 1);
    assert !Clashes(SelfDepend1(), 3, 1);
    assert Wired(SelfDepend1(), And, 1, [2, 3]) == SelfDepend2();
  }

  /**
   * dependsOn tests with equals, not identity: after two successful
   * constructions z.dependsOn(z) holds, because a, upstream of z, equals z,
   * although no chain of wires leads from z back to z.
   */
  lemma SameNameSelfDependence()
    ensures var st := SelfDepend2();
      && Acyclic(st) && DependsOn(st, 0, st.vars[0]) && !Reaches(st, 0, 0)
  {
    BuildSelfDepend2();
    var st := SelfDepend2();
    NoSelfReach(st, 0);
    assert st.gates[1].inputs[0] == 2;
    assert GateReaches(st, 1, 2);
    assert Reaches(st, 1, 2);
    assert st.gates[0].inputs[0] == 1 && Reaches(st, st.gates[0].inputs[0], 2);
    assert GateReaches(st, 0, 2);
    ReachesImpliesDependsOn(st, 0, 2, st.vars[0]);
  }

  /**
   * setCalculatedBy is unchecked: clearing z's driver after z = NOT(o) leaves
   * gate 0 with an output that no longer names it as its calculatedBy.
   */
  lemma SetCalculatedByUnlinks()
    ensures OutputsLinked(SelfDepend1())
    ensures !OutputsLinked(SelfDepend1().(vars := SelfDepend1().vars[0 := SelfDepend1().vars[0].(calculatedBy := None)]))
  {
  }

  // ---------------------------------------------------------------------------
  // testFormulas

  function FormulasInputs(): State
  {
    State([Variable("x1", Some(false), None), Variable("x2", Some(false), None), Variable("x3", Some(false), None),
           Variable("x4", Some(false), None), Variable("w1", None, None), Variable("w2", None, None),
           Variable("y1", None, None), Variable("y2", None, None), Variable("y3", None, None)], [])
  }

  function Formulas1(): State { Wired(FormulasInputs(), And, 4, [0, 1]) }
  function Formulas2(): State { Wired(Formulas1(), Or, 5, [4, 2]) }
  function Formulas3(): State { Wired(Formulas2(), Not, 6, [5]) }
  function Formulas4(): State { Wired(Formulas3(), Not, 7, [3]) }

  /** The testFormulas circuit: w1 = AND(x1,x2), w2 = OR(w1,x3), y1 = NOT(w2), y2 = NOT(x4), y3 = OR(x1,x2). */
  function FormulasCircuit(): State
  {
    State([Variable("x1", Some(false), None), Variable("x2", Some(false), None), Variable("x3", Some(false), None),
           Variable("x4", Some(false), None), Variable("w1", None, Some(0)), Variable("w2", None, Some(1)),
           Variable("y1", None, Some(2)), Variable("y2", None, Some(3)), Variable("y3", None, Some(4))],
          [Gate(And, 4, [0, 1]), Gate(Or, 5, [4, 2]), Gate(Not, 6, [5]), Gate(Not, 7, [3]), Gate(Or, 8, [0, 1])])
  }

  lemma BuildFormulas1()
    ensures GateArgs(FormulasInputs(), And, 4, [0, 1]) && Construct(FormulasInputs(), And, 4, [0, 1]) == Built(Formulas1(), 0)
    ensures Acyclic(Formulas1())
  {
    NoGatesAcyclic(FormulasInputs());
    FreshOutputBuilds(FormulasInputs(), And, 4, [0, 1]);
  }

  lemma BuildFormulas2()
    ensures GateArgs(Formulas1(), Or, 5, [4, 2]) && Construct(Formulas1(), Or, 5, [4, 2]) == Built(Formulas2(), 1)
    ensures Acyclic(Formulas2())
  {
    BuildFormulas1();
    FreshOutputBuilds(Formulas1(), Or, 5, [4, 2]);
  }

  lemma BuildFormulas3()
    ensures GateArgs(Formulas2(), Not, 6, [5]) && Construct(Formulas2(), Not, 6, [5]) == Built(Formulas3(), 2)
    ensures Acyclic(Formulas3())
  {
    BuildFormulas2();
    FreshOutputBuilds(Formulas2(), Not, 6, [5]);
  }

  lemma BuildFormulas4()
    ensures GateArgs(Formulas3(), Not, 7, [3]) && Construct(Formulas3(), Not, 7, [3]) == Built(Formulas4(), 3)
    ensures Acyclic(Formulas4())
  {
    BuildFormulas3();
    FreshOutputBuilds(Formulas3(), Not, 7, [3]);
  }

  lemma BuildFormulas5()
    ensures GateArgs(Formulas4(), Or, 8, [0, 1]) && Construct(Formulas4(), Or, 8, [0, 1]) == Built(FormulasCircuit(), 4)
    ensures Acyclic(FormulasCircuit())
  {
    BuildFormulas4();
    FreshOutputBuilds(Formulas4(), Or, 8, [0, 1]);
    assert Wired(Formulas4(), Or, 8, [0, 1]) == FormulasCircuit();
  }

  /** In the testFormulas circuit, x1 to x4 are free and so their formulas are their names. */
  lemma FormulasOfInputs()
    ensures var st := FormulasCircuit();
      && Acyclic(st)
      && Formula(st, 0) == "x1" && Formula(st, 1) == "x2" && Formula(st, 2) == "x3" && Formula(st, 3) == "x4"
  {
    BuildFormulas5();
    var st := FormulasCircuit();
    FormulaOfFree(st, 0);
    FormulaOfFree(st, 1);
    FormulaOfFree(st, 2);
    FormulaOfFree(st, 3);
  }

  /** The formulas of y2 = NOT(x4) and y3 = OR(x1,x2). */
  lemma FormulasOfOutputs()
    ensures var st := FormulasCircuit();
      && Acyclic(st) && Formula(st, 7) == "NOT(x4)" && Formula(st, 8) == "OR(x1,x2)"
  {
    FormulasOfInputs();
    FormulaOfDriven(FormulasCircuit(), 7);
    FormulaOfDriven(FormulasCircuit(), 8);
  }

  /** The formulas of w1 = AND(x1,x2) and w2 = OR(w1,x3). */
  lemma FormulasOfInternal()
    ensures var st := FormulasCircuit();
      && Acyclic(st) && Formula(st, 4) == "AND(x1,x2)" && Formula(st, 5) == "OR(AND(x1,x2),x3)"
  {
    FormulasOfInputs();
    FormulaOfDriven(FormulasCircuit(), 4);
    FormulaOfDriven(FormulasCircuit(), 5);
  }

  /** The formula of y1 = NOT(w2), which is also the formula of its gate p3. */
  lemma FormulaOfY1()
    ensures var st := FormulasCircuit();
      && Acyclic(st) && Formula(st, 6) == "NOT(OR(AND(x1,x2),x3))" && GateFormula(st, 2) == Formula(st, 6)
  {
    FormulasOfInternal();
    FormulaOfDriven(FormulasCircuit(), 6);
  }

  /** testFormulas: the strings getFormula returns on this circuit. */
  lemma FormulasScenario()
    ensures var st := FormulasCircuit();
      && Acyclic(st)
      && Formula(st, 0) == "x1"
      && Formula(st, 7) == "NOT(x4)"
      && Formula(st, 8) == "OR(x1,x2)"
      && Formula(st, 6) == "NOT(OR(AND(x1,x2),x3))"
      && GateFormula(st, 2) == "NOT(OR(AND(x1,x2),x3))"
  {
    FormulasOfInputs();
    FormulasOfOutputs();
    FormulaOfY1();
  }
}
