/**
 * The network of LogicVariable and LogicGate objects and the three queries
 * that recurse through it: getValue, getFormula and dependsOn. In the Java
 * code each query of a variable defers to its driving gate, and each query of
 * a gate asks its inputs, so the two classes' queries are defined together.
 *
 * Objects are identified by their index: variable v is vars[v], gate g is
 * gates[g]. The recursion terminates because the wiring is acyclic, which is
 * stated as the existence of a rank for every variable and every gate that
 * strictly increases along the wiring (input, then gate, then driven variable).
 */
module Graph {

  import opened Wrappers
  import opened Gates
  import opened Variables

  /** A LogicGate object: its class, its output field and its inputs array. */
  datatype Gate = Gate(kind: Kind, output: VarId, inputs: seq<VarId>)

  /** All variables and gates that exist. */
  datatype State = State(vars: seq<Variable>, gates: seq<Gate>)

  /** Every reference a gate holds points to an existing variable, and it has its class's number of inputs. */
  ghost predicate GateOk(st: State, g: Gate)
  {
    && g.output < |st.vars|
    && |g.inputs| == Arity(g.kind)
    && forall k :: 0 <= k < |g.inputs| ==> g.inputs[k] < |st.vars|
  }

  /** Every reference in the network points to an existing object. */
  ghost predicate WellFormed(st: State)
  {
    && (forall v :: 0 <= v < |st.vars| && st.vars[v].calculatedBy.Some? ==> st.vars[v].calculatedBy.value < |st.gates|)
    && (forall g :: 0 <= g < |st.gates| ==> GateOk(st, st.gates[g]))
  }

  /** The ranks vr (of variables) and gr (of gates) grow along every wire. */
  ghost predicate RankOk(st: State, vr: seq<nat>, gr: seq<nat>)
  {
    && WellFormed(st)
    && |vr| == |st.vars|
    && |gr| == |st.gates|
    && (forall v :: 0 <= v < |st.vars| && st.vars[v].calculatedBy.Some? ==> gr[st.vars[v].calculatedBy.value] < vr[v])
    && (forall g, k :: 0 <= g < |st.gates| && 0 <= k < |st.gates[g].inputs| ==> vr[st.gates[g].inputs[k]] < gr[g])
  }

  /** No chain of calculatedBy and inputs references leads back to where it started. */
  ghost predicate Acyclic(st: State)
  {
    exists vr: seq<nat>, gr: seq<nat> :: RankOk(st, vr, gr)
  }

  /** One choice of ranks; it serves only as the termination measure of the queries. */
  ghost function Ranks(st: State): (r: (seq<nat>, seq<nat>))
    requires Acyclic(st)
    ensures RankOk(st, r.0, r.1)
  {
    var vr: seq<nat>, gr: seq<nat> :| RankOk(st, vr, gr); (vr, gr)
  }

  ghost function VarRank(st: State, v: VarId): nat
    requires Acyclic(st) && v < |st.vars|
  {
    Ranks(st).0[v]
  }

  ghost function GateRank(st: State, g: GateId): nat
    requires Acyclic(st) && g < |st.gates|
  {
    Ranks(st).1[g]
  }

  predicate Driven(st: State, v: VarId)
    requires v < |st.vars|
  {
    st.vars[v].calculatedBy.Some?
  }

  /**
   * Every gate is the calculatedBy of its own output field: the link the
   * LogicGate constructor makes (output.setCalculatedBy(this)) in both directions.
   */
  ghost predicate OutputsLinked(st: State)
  {
    forall g :: 0 <= g < |st.gates| ==>
      st.gates[g].output < |st.vars| && st.vars[st.gates[g].output].calculatedBy == Some(g)
  }

  // ---------------------------------------------------------------------------
  // getValue

  /**
   * getValue of a variable does not throw: a free variable holds a value, and
   * a driven one's gate can be evaluated. Like Java's && and ||, a gate does
   * not look at its second input when the first decides the result.
   */
  predicate Evaluable(st: State, v: VarId)
    requires Acyclic(st) && v < |st.vars|
    decreases VarRank(st, v), 0
  {
    match st.vars[v].calculatedBy
    case None => st.vars[v].value.Some?
    case Some(g) => GateEvaluable(st, g)
  }

  predicate GateEvaluable(st: State, g: GateId)
    requires Acyclic(st) && g < |st.gates|
    decreases GateRank(st, g), 0
  {
    var ins := st.gates[g].inputs;
    match st.gates[g].kind
    case And => Evaluable(st, ins[0]) && (Value(st, ins[0]) ==> Evaluable(st, ins[1]))
    case Or => Evaluable(st, ins[0]) && (!Value(st, ins[0]) ==> Evaluable(st, ins[1]))
    case Not => Evaluable(st, ins[0])
  }

  /** LogicVariable.getValue: the stored value when free, otherwise the driving gate's value. */
  function Value(st: State, v: VarId): bool
    requires Acyclic(st) && v < |st.vars| && Evaluable(st, v)
    decreases VarRank(st, v), 1
  {
    match st.vars[v].calculatedBy
    case None => st.vars[v].value.value
    case Some(g) => GateValue(st, g)
  }

  /** getValue of GateAnd, GateOr and GateNot. */
  function GateValue(st: State, g: GateId): bool
    requires Acyclic(st) && g < |st.gates| && GateEvaluable(st, g)
    decreases GateRank(st, g), 1
  {
    var ins := st.gates[g].inputs;
    match st.gates[g].kind
    case And => Value(st, ins[0]) && Value(st, ins[1])
    case Or => Value(st, ins[0]) || Value(st, ins[1])
    case Not => !Value(st, ins[0])
  }

  // ---------------------------------------------------------------------------
  // getFormula

  /** The formulas in fs separated by single commas, as LogicGate.getFormula appends them. */
  function Join(fs: seq<string>): string
  {
    if |fs| == 0 then ""
    else if |fs| == 1 then fs[0]
    else Join(fs[..|fs| - 1]) + "," + fs[|fs| - 1]
  }

  /** LogicVariable.getFormula: the name when free, otherwise the driving gate's formula. */
  function Formula(st: State, v: VarId): string
    requires Acyclic(st) && v < |st.vars|
    decreases VarRank(st, v), 1
  {
    match st.vars[v].calculatedBy
    case None => st.vars[v].name
    case Some(g) => GateFormula(st, g)
  }

  /** LogicGate.getFormula: the symbol, then the inputs' formulas in parentheses. */
  function GateFormula(st: State, g: GateId): string
    requires Acyclic(st) && g < |st.gates|
    decreases GateRank(st, g), 1
  {
    Symbol(st.gates[g].kind) + "(" + Join(InputFormulas(st, g)) + ")"
  }

  /** The formulas of a gate's inputs, in argument order. */
  function InputFormulas(st: State, g: GateId): (fs: seq<string>)
    requires Acyclic(st) && g < |st.gates|
    decreases GateRank(st, g), 0
  {
    var ins := st.gates[g].inputs;
    seq(|ins|, k requires 0 <= k < |ins| => Formula(st, ins[k]))
  }

  // ---------------------------------------------------------------------------
  // dependsOn

  /** LogicVariable.dependsOn: a free variable depends on nothing, a driven one on what its gate depends on. */
  function DependsOn(st: State, v: VarId, lv: Variable): bool
    requires Acyclic(st) && v < |st.vars|
    decreases VarRank(st, v), 1
  {
    match st.vars[v].calculatedBy
    case None => false
    case Some(g) => GateDependsOn(st, g, lv)
  }

  /** LogicGate.dependsOn. */
  function GateDependsOn(st: State, g: GateId, lv: Variable): bool
    requires Acyclic(st) && g < |st.gates|
    decreases GateRank(st, g), |st.gates[g].inputs| + 1
  {
    DependsOnFrom(st, g, 0, lv)
  }

  /**
   * The loop of LogicGate.dependsOn from input k on: it returns true at the
   * first input that equals lv or depends on it.
   */
  function DependsOnFrom(st: State, g: GateId, k: nat, lv: Variable): bool
    requires Acyclic(st) && g < |st.gates| && k <= |st.gates[g].inputs|
    decreases GateRank(st, g), |st.gates[g].inputs| - k
  {
    var ins := st.gates[g].inputs;
    if k == |ins| then false
    else if Equals(st.vars[ins[k]], lv) || DependsOn(st, ins[k], lv) then true
    else DependsOnFrom(st, g, k + 1, lv)
  }

  // ---------------------------------------------------------------------------
  // Reachability by identity, the reference the queries are compared with

  /** Variable u is (strictly) upstream of v: reached from v through calculatedBy and inputs. */
  ghost predicate Reaches(st: State, v: VarId, u: VarId)
    requires Acyclic(st) && v < |st.vars|
    decreases VarRank(st, v), 1
  {
    match st.vars[v].calculatedBy
    case None => false
    case Some(g) => GateReaches(st, g, u)
  }

  /** Variable u is one of g's inputs or upstream of one. */
  ghost predicate GateReaches(st: State, g: GateId, u: VarId)
    requires Acyclic(st) && g < |st.gates|
    decreases GateRank(st, g), 0
  {
    var ins := st.gates[g].inputs;
    exists k :: 0 <= k < |ins| && (ins[k] == u || Reaches(st, ins[k], u))
  }

  /** u is v itself or upstream of v. */
  ghost predicate Upstream(st: State, v: VarId, u: VarId)
    requires Acyclic(st) && v < |st.vars|
  {
    u == v || Reaches(st, v, u)
  }
}
