# Combinatorial logic circuits

A Dafny model of the `circuits` package in `JUnit5Tests/CombinatorialCircuit/`.

- A `LogicVariable` is a named boolean cell. It holds a value that may be absent and an optional driving gate (`calculatedBy`).
- A `LogicGate`, which is a `GateAnd`, `GateOr` or `GateNot`, has one output variable and two or one inputs.
  - Its constructor first refuses an output that is already driven (`ColisionException`).
  - It then refuses an input that `equals` the output or `dependsOn` it (`CycleException`).
  - Only if both checks pass does it make itself the output's `calculatedBy`.
- `getValue`, `getFormula` and `dependsOn` recurse from a variable into its driving gate, and from a gate into its inputs.
- A `CombinatorialCircuit` is a registry of variables keyed by name. It refuses a second variable with a name it already holds.

How the model is built:

- **Objects are indices.** Every object that exists lives in one `State(vars, gates)`, and a Java reference is an index into it. Identity is equality of indices. `equals` is the predicate `Variables.Equals`, which compares the name and the stored value.
  - Two absent values compare equal. This matches the Java code: `value` is a boxed `Boolean`, and boxing `true`/`false` always yields the same two objects, so `!=` on references compares the values.
- **Acyclicity** is stated as the existence of ranks for variables and gates that strictly grow along every wire (`Graph.Acyclic`). It gives the recursive queries their termination measure. The model proves that the gate constructor preserves acyclicity.
- **Reading an absent value.** `getValue` on an undriven variable without a value unboxes `null` and throws. This is the precondition `Graph.Evaluable`, which follows Java's `&&`/`||` short circuit: `AND` does not read its second input when the first is false, and `OR` does not read it when the first is true.
- **Modules and dependencies:** `Gates` (the three gate classes), `Variables`, `Graph` (the queries), `GraphFacts` (what the queries mean), `Wiring` (the constructor and `setValue` as functions from network to network), `Objects` (class `Network`, which performs them in place), `Registry` (class `CombinatorialCircuit`) and `Scenarios` (the circuits of `TestLogicCircuits.java`).
- **Where the queries live:** `getValue`, `getFormula` and `dependsOn` are `Graph.Value`, `Graph.Formula` and `Graph.DependsOn` for a variable, and `Graph.GateValue`, `Graph.GateFormula` and `Graph.GateDependsOn` for a gate.
- **The loops and the setters:**
  - The loop of `LogicGate.dependsOn` is `Graph.DependsOnFrom`.
  - The constructor's loop is the method `Objects.FindCycle`.
  - The `StringBuilder` loop of `LogicGate.getFormula` is `Objects.BuildGateFormula`.
  - `setValue` and `setCalculatedBy` are methods of `Objects.Network` that overwrite the fields.
- **Plain field reads** (`getName`, `getCalculatedBy`, `getOutput`, `getInputs`, `getSymbol`) are the fields `name`, `calculatedBy`, `output`, `inputs` and `Gates.Symbol(kind)`.

The code differs from a write-once reading of `calculatedBy`, and the model follows the code. The constructor sets `calculatedBy` only on an undriven output. However, `setCalculatedBy` itself is public and unchecked (LogicVariable.java:62-64). `Objects.Network.SetCalculatedBy` therefore overwrites without a check and keeps only well-formedness. This is why the queries and the gate constructor take acyclicity as a precondition and it is not a class invariant. For the same reason, `Graph.OutputsLinked` is not a class invariant either. It says every gate is the `calculatedBy` of its own output. Every other method of `Objects.Network` keeps it, but `SetCalculatedBy` can break it (`Scenarios.SetCalculatedByUnlinks`).

`dependsOn` is not reachability. It follows the wires but tests each variable it meets with `equals`. A variable upstream that merely has the same name and value counts as a match. So after two successful constructions, `z.dependsOn(z)` can hold although no chain of wires leads from `z` back to `z` (`Scenarios.SameNameSelfDependence`). Reachability by identity is the ghost predicate `Graph.Reaches`, and the acyclicity the constructor keeps is stated in those terms (`GraphFacts.NoSelfReach`).

## Model

| member | source | states |
|---|---|---|
| Gates.Symbol | JUnit5Tests/CombinatorialCircuit/GateAnd.java:10-12 | getSymbol is "AND" exactly for GateAnd, "OR" exactly for GateOr (GateOr.java:10-12) and "NOT" exactly for GateNot (GateNot.java:10-12) |
| Gates.Arity | JUnit5Tests/CombinatorialCircuit/GateAnd.java:5-7 | GateAnd and GateOr take two inputs and GateNot exactly one (GateOr.java:5-7, GateNot.java:5-7) |
| Gates.SymbolInjective | JUnit5Tests/CombinatorialCircuit/GateNot.java:10-12 | two gate classes with the same symbol are the same class |
| Variables.EqualsReflexive | JUnit5Tests/CombinatorialCircuit/LogicVariable.java:41-42 | every variable equals itself |
| Variables.EqualsEquivalence | JUnit5Tests/CombinatorialCircuit/LogicVariable.java:47-55 | equals is symmetric and transitive |
| Variables.UnsetSameNameEqual | JUnit5Tests/CombinatorialCircuit/LogicVariable.java:48-55 | two unset variables with the same name are equal whatever drives them; an unset variable is not equal to one holding false |
| GraphFacts.ReachesLowersRank | JUnit5Tests/CombinatorialCircuit/LogicGate.java:13-17 | along every chain of wires the rank strictly decreases, so a chain never returns to its start |
| GraphFacts.NoSelfReach | JUnit5Tests/CombinatorialCircuit/LogicGate.java:13-17 | in an acyclic network no variable is reachable from itself through its driver and that driver's inputs |
| GraphFacts.DependsOnFromAnyInput | JUnit5Tests/CombinatorialCircuit/LogicGate.java:46-50 | the loop from input k on returns true iff some input at or after k equals lv or depends on it |
| GraphFacts.GateDependsOnAnyInput | JUnit5Tests/CombinatorialCircuit/LogicGate.java:44-52 | a gate depends on lv iff some input equals lv or depends on lv |
| GraphFacts.DependsOnIffUpstreamEqual | JUnit5Tests/CombinatorialCircuit/LogicVariable.java:70-72 | a variable depends on lv iff some variable strictly upstream of it through the wiring equals lv; an undriven variable depends on nothing |
| GraphFacts.GateDependsOnIffUpstreamEqual | JUnit5Tests/CombinatorialCircuit/LogicGate.java:44-52 | a gate depends on lv iff some variable upstream of one of its inputs, or the input itself, equals lv |
| GraphFacts.ReachesImpliesDependsOn | JUnit5Tests/CombinatorialCircuit/LogicVariable.java:70-72 | a variable depends on every variable that lies upstream of it |
| GraphFacts.JoinOne | JUnit5Tests/CombinatorialCircuit/LogicGate.java:35-39 | one formula is joined without a comma |
| GraphFacts.JoinTwo | JUnit5Tests/CombinatorialCircuit/LogicGate.java:35-39 | two formulas are joined by a single comma and nothing else |
| GraphFacts.JoinSnoc | JUnit5Tests/CombinatorialCircuit/LogicGate.java:35-39 | appending one more formula adds a comma before it exactly when something precedes it |
| GraphFacts.FormulaOfDriven | JUnit5Tests/CombinatorialCircuit/LogicGate.java:32-42 | a driven variable's formula is SYM(a,b) for AND and OR and NOT(a) for NOT, with a and b its inputs' formulas |
| GraphFacts.FormulaOfFree | JUnit5Tests/CombinatorialCircuit/LogicVariable.java:66-68 | an undriven variable's formula is its name |
| GraphFacts.ValueOfFree | JUnit5Tests/CombinatorialCircuit/LogicVariable.java:22-24 | an undriven variable can be read exactly when it holds a value, and then reads that value |
| GraphFacts.AndValue | JUnit5Tests/CombinatorialCircuit/GateAnd.java:15-17 | an AND-driven variable is readable iff its first input is and, when that is true, its second; it is false when the first input is false; otherwise it is the conjunction |
| GraphFacts.OrValue | JUnit5Tests/CombinatorialCircuit/GateOr.java:15-17 | an OR-driven variable is readable iff its first input is and, when that is false, its second; it is true when the first input is true; otherwise it is the disjunction |
| GraphFacts.NotValue | JUnit5Tests/CombinatorialCircuit/GateNot.java:15-17 | a NOT-driven variable is readable iff its input is, and is the input's negation |
| GraphFacts.InputsSetEvaluable | JUnit5Tests/CombinatorialCircuit/LogicVariable.java:22-24 | a variable can be read when every undriven variable upstream of it holds a value |
| GraphFacts.FrameFormula | JUnit5Tests/CombinatorialCircuit/LogicVariable.java:66-68 | a variable's formula depends only on the names and wiring upstream of it |
| GraphFacts.FrameValue | JUnit5Tests/CombinatorialCircuit/LogicVariable.java:22-24 | a variable's value depends only on the wiring and the stored values upstream of it |
| GraphFacts.FrameDependsOn | JUnit5Tests/CombinatorialCircuit/LogicVariable.java:70-72 | dependsOn depends only on the wiring upstream of the variable and on those variables' names and values |
| GraphFacts.LinkedOutputsDistinct | JUnit5Tests/CombinatorialCircuit/LogicGate.java:9-10 | when every gate drives its own output, no two gates share an output variable |
| GraphFacts.LinkedFormula | JUnit5Tests/CombinatorialCircuit/LogicVariable.java:66-68 | when every gate drives its own output, a gate's getFormula equals its output's getFormula |
| GraphFacts.LinkedValue | JUnit5Tests/CombinatorialCircuit/LogicVariable.java:22-24 | when every gate drives its own output, a gate's getValue can be read exactly when its output's can, and both are equal |
| Wiring.Construct | JUnit5Tests/CombinatorialCircuit/LogicGate.java:8-18 | the constructor fails with a collision iff the output is driven; otherwise it fails with a cycle iff some input equals the output or depends on it; otherwise the new gate is the next index, it drives the output, and the network stays acyclic |
| Wiring.NoClashNotUpstream | JUnit5Tests/CombinatorialCircuit/LogicGate.java:14 | an input that neither equals the output nor depends on it is not upstream of the output, so the new wire closes no loop |
| Wiring.WiredAcyclic | JUnit5Tests/CombinatorialCircuit/LogicGate.java:13-17 | wiring an undriven output to inputs that pass the cycle test leaves the network acyclic |
| Wiring.FreshOutputBuilds | JUnit5Tests/CombinatorialCircuit/LogicGate.java:9-17 | construction succeeds when the output is undriven, is no gate's input, is not among the new inputs and shares its name with no other variable |
| Wiring.ConstructKeepsUnrelated | JUnit5Tests/CombinatorialCircuit/LogicGate.java:17 | a successful construction leaves the formula, the value and dependsOn of every variable not downstream of the output unchanged |
| Wiring.ConstructKeepsInputs | JUnit5Tests/CombinatorialCircuit/LogicGate.java:17 | the new gate's inputs keep whether they are driven, their formula, their value and their dependencies |
| Wiring.ConstructKeepsLinked | JUnit5Tests/CombinatorialCircuit/LogicGate.java:9-17 | a successful construction keeps every gate the calculatedBy of its own output, the new gate included |
| Wiring.ConstructRecordsWiring | JUnit5Tests/CombinatorialCircuit/LogicGate.java:11-26 | after success the new gate has the given class, output and inputs in argument order; the output's calculatedBy is the new gate; no other variable and no earlier gate changes |
| Wiring.ConstructFormula | JUnit5Tests/CombinatorialCircuit/LogicGate.java:32-42 | after success the output's formula is the symbol applied to the inputs' formulas from before the construction |
| Wiring.ConstructValue | JUnit5Tests/CombinatorialCircuit/GateAnd.java:15-17 | after success the output reads the AND, OR or NOT of its inputs' values from before the construction (GateOr.java:15-17, GateNot.java:15-17) |
| Wiring.WithVariableAcyclic | JUnit5Tests/CombinatorialCircuit/LogicVariable.java:9-16 | creating a variable keeps the network acyclic |
| Wiring.WithVariableKeeps | JUnit5Tests/CombinatorialCircuit/LogicVariable.java:9-16 | creating a variable keeps acyclicity and changes no existing variable's formula, readability or value |
| Wiring.WithVariableKeepsLinked | JUnit5Tests/CombinatorialCircuit/LogicVariable.java:9-16 | creating a variable keeps every gate linked to its output |
| Wiring.WithValueKeepsLinked | JUnit5Tests/CombinatorialCircuit/LogicVariable.java:26-28 | setValue keeps every gate linked to its output |
| Wiring.WithValueAcyclic | JUnit5Tests/CombinatorialCircuit/LogicVariable.java:26-28 | setValue keeps the network acyclic |
| Wiring.SetValueThenGet | JUnit5Tests/CombinatorialCircuit/LogicVariable.java:22-28 | after setValue(b) on an undriven variable, getValue returns b |
| Wiring.SetValueOnDrivenInvisible | JUnit5Tests/CombinatorialCircuit/LogicVariable.java:23-27 | setValue on a driven variable changes no variable's readability or value |
| Wiring.SetValueKeepsFormula | JUnit5Tests/CombinatorialCircuit/LogicVariable.java:66-68 | setValue changes no variable's formula |
| Wiring.SetValueKeepsUnrelated | JUnit5Tests/CombinatorialCircuit/LogicVariable.java:26-28 | setValue on x changes nothing about a variable that x is not upstream of |
| Objects.FindCycle | JUnit5Tests/CombinatorialCircuit/LogicGate.java:13-16 | the loop reports a cycle iff some input equals the output or depends on it |
| Objects.BuildGateFormula | JUnit5Tests/CombinatorialCircuit/LogicGate.java:32-42 | the string builder loop yields exactly the gate's formula, the symbol followed by the inputs' formulas in parentheses, separated by commas |
| Objects.Network.NewVariable | JUnit5Tests/CombinatorialCircuit/LogicVariable.java:9-16 | a new undriven variable with the name and the optional value is appended; acyclicity and the gate-output links are kept |
| Objects.Network.SetValue | JUnit5Tests/CombinatorialCircuit/LogicVariable.java:26-28 | only the variable's stored value changes; acyclicity and the gate-output links are kept |
| Objects.Network.SetCalculatedBy | JUnit5Tests/CombinatorialCircuit/LogicVariable.java:62-64 | only the variable's driver changes, with no check |
| Objects.Network.NewGate | JUnit5Tests/CombinatorialCircuit/LogicGate.java:8-18 | on success the network becomes the constructed one and the new gate is returned; on either exception the network is unchanged; the gate-output links are kept |
| Objects.Network.NewAnd | JUnit5Tests/CombinatorialCircuit/GateAnd.java:5-7 | new GateAnd(output, input1, input2) is the base constructor on [input1, input2]; the gate-output links are kept |
| Objects.Network.NewOr | JUnit5Tests/CombinatorialCircuit/GateOr.java:5-7 | new GateOr(output, input1, input2) is the base constructor on [input1, input2]; the gate-output links are kept |
| Objects.Network.NewNot | JUnit5Tests/CombinatorialCircuit/GateNot.java:5-7 | new GateNot(output, input) is the base constructor on [input]; the gate-output links are kept |
| Registry.CombinatorialCircuit.constructor | JUnit5Tests/CombinatorialCircuit/CombinatorialCircuit.java:7 | a new registry is empty |
| Registry.CombinatorialCircuit.GetVariableByName | JUnit5Tests/CombinatorialCircuit/CombinatorialCircuit.java:15-17 | the variable added under the name, and none for a name never added |
| Registry.CombinatorialCircuit.AddVariable | JUnit5Tests/CombinatorialCircuit/CombinatorialCircuit.java:8-13 | true iff the name was absent, whatever the stored value; then the name maps to the variable, otherwise nothing changes; the key set grows by at most one and no entry is replaced |
| Registry.AddTwoNamedX1 | JUnit5Tests/CombinatorialCircuit/TestLogicCircuits.java:268-269 | two distinct variables, both named x1, are created in the network |
| Registry.DuplicateNameScenario | JUnit5Tests/CombinatorialCircuit/TestLogicCircuits.java:266-274 | the first x1 is added, a second x1 is refused, x1 finds the first and x2 finds nothing |
| Scenarios.LogicVariableScenario | JUnit5Tests/CombinatorialCircuit/TestLogicCircuits.java:41-46 | x1 reads false, and true after setValue(true) |
| Scenarios.EqualsScenario | JUnit5Tests/CombinatorialCircuit/TestLogicCircuits.java:54-58 | two distinct unset variables, both named y1, are equal in both directions |
| Scenarios.BuildP1 | JUnit5Tests/CombinatorialCircuit/TestLogicCircuits.java:77 | new GateAnd(w1, x1, x2) succeeds |
| Scenarios.BuildP2 | JUnit5Tests/CombinatorialCircuit/TestLogicCircuits.java:81 | new GateOr(w2, w1, x3) succeeds |
| Scenarios.BuildP3 | JUnit5Tests/CombinatorialCircuit/TestLogicCircuits.java:85 | new GateNot(y1, w2) succeeds |
| Scenarios.LogicGatesScenario | JUnit5Tests/CombinatorialCircuit/TestLogicCircuits.java:77-87 | each of the three gates keeps its output, its inputs in order and its symbol "AND", "OR", "NOT" (also TestLogicCircuits.java:109-116) |
| Scenarios.CalculatedByScenario | JUnit5Tests/CombinatorialCircuit/TestLogicCircuits.java:133-137 | y1 is calculated by the new gate, x1 and x2 by none |
| Scenarios.CollisionScenario | JUnit5Tests/CombinatorialCircuit/TestLogicCircuits.java:149-158 | a second gate on y1 fails with a collision |
| Scenarios.CycleScenario | JUnit5Tests/CombinatorialCircuit/TestLogicCircuits.java:245-254 | after w3 = AND(w1, w2), NOT(w2; w3) fails with a cycle |
| Scenarios.OwnCycleScenario | JUnit5Tests/CombinatorialCircuit/TestLogicCircuits.java:256-257 | a gate with its own output as an input fails with a cycle |
| Scenarios.BuildSelfDepend1 | JUnit5Tests/CombinatorialCircuit/LogicGate.java:8-18 | new GateNot(z, o) succeeds on free variables z, o, a (named z) and b |
| Scenarios.BuildSelfDepend2 | JUnit5Tests/CombinatorialCircuit/LogicGate.java:8-18 | then new GateAnd(o, a, b) succeeds as well |
| Scenarios.SameNameSelfDependence | JUnit5Tests/CombinatorialCircuit/LogicGate.java:47 | afterwards z.dependsOn(z) holds although z is not upstream of itself, because a equals z |
| Scenarios.SetCalculatedByUnlinks | JUnit5Tests/CombinatorialCircuit/LogicVariable.java:62-64 | clearing z's calculatedBy after z = NOT(o) breaks the link from gate 0 to its output |
| Scenarios.SameNameIsCycle | JUnit5Tests/CombinatorialCircuit/LogicGate.java:14 | an input that is a different, unwired, unset variable with the output's name is still refused as a cycle, because the test uses equals |
| Scenarios.BuildFormulas1 | JUnit5Tests/CombinatorialCircuit/TestLogicCircuits.java:190 | new GateAnd(w1, x1, x2) succeeds |
| Scenarios.BuildFormulas2 | JUnit5Tests/CombinatorialCircuit/TestLogicCircuits.java:191 | new GateOr(w2, w1, x3) succeeds |
| Scenarios.BuildFormulas3 | JUnit5Tests/CombinatorialCircuit/TestLogicCircuits.java:192 | new GateNot(y1, w2) succeeds |
| Scenarios.BuildFormulas4 | JUnit5Tests/CombinatorialCircuit/TestLogicCircuits.java:194 | new GateNot(y2, x4) succeeds |
| Scenarios.BuildFormulas5 | JUnit5Tests/CombinatorialCircuit/TestLogicCircuits.java:195 | new GateOr(y3, x1, x2) succeeds |
| Scenarios.FormulasOfInputs | JUnit5Tests/CombinatorialCircuit/TestLogicCircuits.java:197 | the free variables' formulas are their names |
| Scenarios.FormulasOfOutputs | JUnit5Tests/CombinatorialCircuit/TestLogicCircuits.java:198-199 | y2 reads "NOT(x4)" and y3 reads "OR(x1,x2)" |
| Scenarios.FormulasOfInternal | JUnit5Tests/CombinatorialCircuit/TestLogicCircuits.java:190-191 | w1 reads "AND(x1,x2)" and w2 reads "OR(AND(x1,x2),x3)" |
| Scenarios.FormulaOfY1 | JUnit5Tests/CombinatorialCircuit/TestLogicCircuits.java:200-201 | y1 and its gate p3 both read "NOT(OR(AND(x1,x2),x3))" |
| Scenarios.FormulasScenario | JUnit5Tests/CombinatorialCircuit/TestLogicCircuits.java:197-201 | all five formulas of the test |
| Scenarios.BuildW1 | JUnit5Tests/CombinatorialCircuit/TestLogicCircuits.java:219 | new GateAnd(w1, x1, x2) succeeds |
| Scenarios.BuildW2 | JUnit5Tests/CombinatorialCircuit/TestLogicCircuits.java:220 | new GateOr(w2, w1, x3) succeeds |
| Scenarios.BuildY1 | JUnit5Tests/CombinatorialCircuit/TestLogicCircuits.java:221 | new GateNot(y1, w2) succeeds |
| Scenarios.BuildY2 | JUnit5Tests/CombinatorialCircuit/TestLogicCircuits.java:223 | new GateAnd(y2, x1, x3) succeeds |
| Scenarios.ValuesScenario | JUnit5Tests/CombinatorialCircuit/TestLogicCircuits.java:225-231 | all seven variables read the values the test expects |
| Scenarios.ValuesAfterSetValue | JUnit5Tests/CombinatorialCircuit/TestLogicCircuits.java:233-234 | after x3.setValue(false), y1 reads true with nothing cached |

## Left out

- hashCode (LogicVariable.java:30-37): Java hashing arithmetic, which also throws on an unset variable. The registry hashes names, not variables.
- toString and the message of ColisionException: message carriers, not circuit behaviour. The two exceptions are the variants of `Wiring.Error`. CycleException.java is not part of this model.
- null names, a null output or null inputs: every reference in the model points to an existing object.
- Aliasing of the varargs `inputs` array, which getInputs returns: a gate's inputs are an immutable sequence.
- The reflection-based checks of the tests (`fieldsArePrivateOrProtected`, `classIsAbstract`, LogicGate being abstract): they inspect Java modifiers, not behaviour.
- The NormalDistribution package: floating-point numerics and a static registry, outside the circuit package.
- Objects.Network.NewGate, Objects.Network.NewAnd, Objects.Network.NewOr, Objects.Network.NewNot and Wiring.Construct require the network to be acyclic (`Wiring.GateArgs`). In a network made cyclic through setCalculatedBy, the Java cycle check may recurse forever, and the model does not describe that run. A driven output in such a network makes Java throw ColisionException at once, without recursing. The model leaves that case out too.
- Graph.Value, Graph.Formula and Graph.DependsOn: defined only on acyclic networks, for the same reason.
- The scenarios are stated on the network as a value (`Wiring.Construct` step by step). `Objects.Network.NewGate` is tied to that function by its contract.
