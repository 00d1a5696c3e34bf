/**
 * The LogicVariable and LogicGate objects as they change in place. A Network
 * holds every variable and gate that exists; a reference to an object is its
 * index. Each method performs one Java constructor or setter and says what the
 * network is afterwards, in terms of the functions of modules Graph and Wiring.
 */
module Objects {

  import opened Wrappers
  import opened Gates
  import opened Variables
  import opened Graph
  import opened GraphFacts
  import opened Wiring

  /**
   * The loop of the LogicGate constructor: it stops at the first input that
   * equals the output or depends on it.
   */
  method FindCycle(st: State, out: VarId, ins: seq<VarId>) returns (found: bool)
    requires Acyclic(st) && out < |st.vars|
    requires forall k :: 0 <= k < |ins| ==> ins[k] < |st.vars|
    ensures found <==> exists k :: 0 <= k < |ins| && Clashes(st, ins[k], out)
  {
    for k := 0 to |ins|
      invariant forall j :: 0 <= j < k ==> !Clashes(st, ins[j], out)
    {
      var input := ins[k];
      if Equals(st.vars[input], st.vars[out]) || DependsOn(st, input, st.vars[out]) {
        return true;
      }
    }
    return false;
  }

  /** LogicGate.getFormula, appending to a string builder input by input. */
  method BuildGateFormula(st: State, g: GateId) returns (s: string)
    requires Acyclic(st) && g < |st.gates|
    ensures s == GateFormula(st, g)
  {
    var ins := st.gates[g].inputs;
    ghost var fs := InputFormulas(st, g);
    s := Symbol(st.gates[g].kind) + "(";
    for i := 0 to |ins|
      invariant s == Symbol(st.gates[g].kind) + "(" + Join(fs[..i])
    {
      if i > 0 {
        s := s + ",";
      }
      s := s + Formula(st, ins[i]);
      JoinSnoc(fs[..i], fs[i]);
      assert fs[..i + 1] == fs[..i] + [fs[i]];
    }
    assert fs[..|ins|] == fs;
    s := s + ")";
  }

  class Network {
    var vars: seq<Variable>
    var gates: seq<Gate>

    /** The network as a value. */
    function St(): State
      reads this
    {
      State(vars, gates)
    }

    /** Every reference points to an existing object. */
    ghost predicate Valid()
      reads this
    {
      WellFormed(St())
    }

    constructor ()
      ensures Valid() && vars == [] && gates == []
      ensures Acyclic(St()) && OutputsLinked(St())
    {
      vars, gates := [], [];
      new;
      assert RankOk(St(), [], []);
    }

    /**
     * new LogicVariable(name, value) when value is present and
     * new LogicVariable(name) when it is absent.
     */
    method NewVariable(name: string, value: Option<bool>) returns (v: VarId)
      requires Valid()
      modifies this
      ensures Valid()
      ensures v == |old(vars)| && St() == WithVariable(old(St()), name, value)
      ensures Acyclic(old(St())) ==> Acyclic(St())
      ensures OutputsLinked(old(St())) ==> OutputsLinked(St())
    {
      ghost var st := St();
      v := |vars|;
      vars := vars + [Variable(name, value, None)];
      forall g | 0 <= g < |gates|
        ensures GateOk(St(), gates[g])
      {
        assert GateOk(st, st.gates[g]);
      }
      if Acyclic(st) {
        WithVariableAcyclic(st, name, value);
      }
      if OutputsLinked(st) {
        WithVariableKeepsLinked(st, name, value);
      }
    }

    /** LogicVariable.setValue: overwrites the stored value, driven or not. */
    method SetValue(v: VarId, b: bool)
      requires Valid() && v < |vars|
      modifies this
      ensures Valid()
      ensures St() == WithValue(old(St()), v, b)
      ensures Acyclic(old(St())) ==> Acyclic(St())
      ensures OutputsLinked(old(St())) ==> OutputsLinked(St())
    {
      ghost var st := St();
      vars := vars[v := vars[v].(value := Some(b))];
      if Acyclic(st) {
        WithValueAcyclic(st, v, b);
      }
      if OutputsLinked(st) {
        WithValueKeepsLinked(st, v, b);
      }
    }

    /**
     * LogicVariable.setCalculatedBy: overwrites the driver without any check,
     * so it can break OutputsLinked and acyclicity.
     */
    method SetCalculatedBy(v: VarId, gate: Option<GateId>)
      requires Valid() && v < |vars|
      requires gate.Some? ==> gate.value < |gates|
      modifies this
      ensures Valid()
      ensures vars == old(vars)[v := old(vars)[v].(calculatedBy := gate)] && gates == old(gates)
    {
      vars := vars[v := vars[v].(calculatedBy := gate)];
    }

    /**
     * The LogicGate constructor: collision check, cycle check, and then the
     * one change, output.calculatedBy := the new gate.
     */
    method NewGate(kind: Kind, out: VarId, ins: seq<VarId>) returns (r: Result<GateId, Error>)
      requires Valid() && GateArgs(St(), kind, out, ins)
      modifies this
      ensures Valid()
      ensures match Construct(old(St()), kind, out, ins)
        case Built(next, g) => r == Success(g) && St() == next
        case Failed(e) => r == Failure(e) && St() == old(St())
      ensures OutputsLinked(old(St())) ==> OutputsLinked(St())
    {
      if vars[out].calculatedBy.Some? {
        return Failure(Collision);
      }
      var cycle := FindCycle(St(), out, ins);
      if cycle {
        return Failure(Cycle);
      }
      ghost var built := Construct(St(), kind, out, ins);
      gates := gates + [Gate(kind, out, ins)];
      vars := vars[out := vars[out].(calculatedBy := Some(|gates| - 1))];
      r := Success(|gates| - 1);
      assert St() == built.next;
      if OutputsLinked(old(St())) {
        ConstructKeepsLinked(old(St()), kind, out, ins);
      }
    }

    /** new GateAnd(output, input1, input2). */
    method NewAnd(out: VarId, in1: VarId, in2: VarId) returns (r: Result<GateId, Error>)
      requires Valid() && Acyclic(St()) && out < |vars| && in1 < |vars| && in2 < |vars|
      modifies this
      ensures Valid()
      ensures match Construct(old(St()), And, out, [in1, in2])
        case Built(next, g) => r == Success(g) && St() == next
        case Failed(e) => r == Failure(e) && St() == old(St())
      ensures OutputsLinked(old(St())) ==> OutputsLinked(St())
    {
      r := NewGate(And, out, [in1, in2]);
    }

    /** new GateOr(output, input1, input2). */
    method NewOr(out: VarId, in1: VarId, in2: VarId) returns (r: Result<GateId, Error>)
      requires Valid() && Acyclic(St()) && out < |vars| && in1 < |vars| && in2 < |vars|
      modifies this
      ensures Valid()
      ensures match Construct(old(St()), Or, out, [in1, in2])
        case Built(next, g) => r == Success(g) && St() == next
        case Failed(e) => r == Failure(e) && St() == old(St())
      ensures OutputsLinked(old(St())) ==> OutputsLinked(St())
    {
      r := NewGate(Or, out, [in1, in2]);
    }

    /** new GateNot(output, input). */
    method NewNot(out: VarId, input: VarId) returns (r: Result<GateId, Error>)
      requires Valid() && Acyclic(St()) && out < |vars| && input < |vars|
      modifies this
      ensures Valid()
      ensures match Construct(old(St()), Not, out, [input])
        case Built(next, g) => r == Success(g) && St() == next
        case Failed(e) => r == Failure(e) && St() == old(St())
      ensures OutputsLinked(old(St())) ==> OutputsLinked(St())
    {
      r := NewGate(Not, out, [input]);
    }
  }
}
