/**
 * The two ways the network changes: the LogicGate constructor, which checks
 * for a collision and then for a cycle before it claims its output, and
 * LogicVariable.setValue. Both are stated here as functions from the old
 * network to the new one; class Network in module Objects performs them in
 * place.
 */
module Wiring {

  import opened Wrappers
  import opened Gates
  import opened Variables
  import opened Graph
  import opened GraphFacts

  /** The two exceptions of the LogicGate constructor. */
  datatype Error = Collision | Cycle

  /** A constructed gate and the network it is part of, or the exception thrown. */
  datatype Outcome = Built(next: State, gate: GateId) | Failed(error: Error)

  /** What the constructor of a gate class supplies: its output and as many inputs as the class takes. */
  ghost predicate GateArgs(st: State, kind: Kind, out: VarId, ins: seq<VarId>)
  {
    && Acyclic(st)
    && out < |st.vars|
    && |ins| == Arity(kind)
    && forall k :: 0 <= k < |ins| ==> ins[k] < |st.vars|
  }

  /** The test of the constructor's loop: the input equals the output or depends on it. */
  predicate Clashes(st: State, i: VarId, out: VarId)
    requires Acyclic(st) && i < |st.vars| && out < |st.vars|
  {
    Equals(st.vars[i], st.vars[out]) || DependsOn(st, i, st.vars[out])
  }

  /** The network after a gate has been added and its output's calculatedBy set to it. */
  function Wired(st: State, kind: Kind, out: VarId, ins: seq<VarId>): State
    requires out < |st.vars|
  {
    State(st.vars[out := st.vars[out].(calculatedBy := Some(|st.gates|))], st.gates + [Gate(kind, out, ins)])
  }

  /**
   * The LogicGate constructor. A driven output is a collision; otherwise an
   * input that equals the output or depends on it is a cycle; otherwise the
   * gate exists and drives its output, and the network is still acyclic.
   */
  function Construct(st: State, kind: Kind, out: VarId, ins: seq<VarId>): (r: Outcome)
    requires GateArgs(st, kind, out, ins)
    ensures r == Failed(Collision) <==> Driven(st, out)
    ensures r == Failed(Cycle) <==> !Driven(st, out) && exists k :: 0 <= k < |ins| && Clashes(st, ins[k], out)
    ensures r.Built? ==> r.gate == |st.gates| && r.next == Wired(st, kind, out, ins)
    ensures r.Built? ==> Acyclic(r.next) && out !in ins
  {
    if Driven(st, out) then Failed(Collision)
    else if exists k :: 0 <= k < |ins| && Clashes(st, ins[k], out) then Failed(Cycle)
    else
      WiredAcyclic(st, kind, out, ins);
      Built(Wired(st, kind, out, ins), |st.gates|)
  }

  /** The largest element of s (0 for the empty sequence). */
  function MaxOf(s: seq<nat>): (m: nat)
    ensures forall i :: 0 <= i < |s| ==> s[i] <= m
  {
    if |s| == 0 then 0 else var m' := MaxOf(s[1..]); if s[0] < m' then m' else s[0]
  }

  /** An input that passes the cycle test is neither the output nor downstream of it. */
  lemma NoClashNotUpstream(st: State, i: VarId, out: VarId)
    requires Acyclic(st) && i < |st.vars| && out < |st.vars|
    requires !Clashes(st, i, out)
    ensures !Upstream(st, i, out)
  {
    if i == out {
      EqualsReflexive(st.vars[out]);
    }
    if Reaches(st, i, out) {
      EqualsReflexive(st.vars[out]);
      ReachesImpliesDependsOn(st, i, out, st.vars[out]);
    }
  }

  /**
   * Adding a gate whose output is free and whose inputs pass the cycle test
   * keeps the network acyclic. New ranks: everything at or downstream of the
   * output moves up by more than any old rank, and the new gate sits between.
   */
  lemma WiredAcyclic(st: State, kind: Kind, out: VarId, ins: seq<VarId>)
    requires GateArgs(st, kind, out, ins) && !Driven(st, out)
    requires forall k :: 0 <= k < |ins| ==> !Clashes(st, ins[k], out)
    ensures Acyclic(Wired(st, kind, out, ins))
  {
    var st' := Wired(st, kind, out, ins);
    var (vr, gr) := Ranks(st);
    var m := MaxOf(vr);
    var shift := m + 2;
    var vr' := seq(|vr|, x requires 0 <= x < |vr| => if Upstream(st, x, out) then vr[x] + shift else vr[x]);
    var gr' := seq(|gr|, g requires 0 <= g < |gr| => if GateReaches(st, g, out) then gr[g] + shift else gr[g]) + [m + 1];
    var n := |st.gates|;

    forall g | 0 <= g < |st'.gates|
      ensures GateOk(st', st'.gates[g])
    {
      if g < n {
        assert GateOk(st, st.gates[g]);
      }
    }
    assert WellFormed(st');

    forall v | 0 <= v < |st'.vars| && st'.vars[v].calculatedBy.Some?
      ensures gr'[st'.vars[v].calculatedBy.value] < vr'[v]
    {
      if v == out {
        assert Upstream(st, out, out);
      } else {
        var g := st.vars[v].calculatedBy.value;
        if GateReaches(st, g, out) {
          assert Reaches(st, v, out);
        }
      }
    }

    forall g, k | 0 <= g < |st'.gates| && 0 <= k < |st'.gates[g].inputs|
      ensures vr'[st'.gates[g].inputs[k]] < gr'[g]
    {
      var i := st'.gates[g].inputs[k];
      if g == n {
        NoClashNotUpstream(st, ins[k], out);
      } else if Upstream(st, i, out) {
        assert GateReaches(st, g, out);
      }
    }
    assert RankOk(st', vr', gr');
  }

  /** No chain of wires ends at a variable that is no gate's input. */
  lemma {:induction false} NotAnInputUnreached(st: State, v: VarId, out: VarId)
    requires Acyclic(st) && v < |st.vars|
    requires forall g, k :: 0 <= g < |st.gates| && 0 <= k < |st.gates[g].inputs| ==> st.gates[g].inputs[k] != out
    ensures !Reaches(st, v, out)
    decreases VarRank(st, v)
  {
    if Driven(st, v) {
      var g := st.vars[v].calculatedBy.value;
      var ins := st.gates[g].inputs;
      forall k | 0 <= k < |ins|
        ensures !Reaches(st, ins[k], out)
      {
        NotAnInputUnreached(st, ins[k], out);
      }
    }
  }

  /**
   * The usual way a circuit is built: a gate whose output is free, feeds no
   * gate yet, is not among the inputs and has a name no other variable has,
   * is constructed.
   */
  lemma FreshOutputBuilds(st: State, kind: Kind, out: VarId, ins: seq<VarId>)
    requires GateArgs(st, kind, out, ins) && !Driven(st, out) && out !in ins
    requires forall g, k :: 0 <= g < |st.gates| && 0 <= k < |st.gates[g].inputs| ==> st.gates[g].inputs[k] != out
    requires forall u :: 0 <= u < |st.vars| && u != out ==> st.vars[u].name != st.vars[out].name
    ensures Construct(st, kind, out, ins).Built?
  {
    forall k | 0 <= k < |ins|
      ensures !Clashes(st, ins[k], out)
    {
      NotAnInputUnreached(st, ins[k], out);
      DependsOnIffUpstreamEqual(st, ins[k], st.vars[out]);
    }
  }

  /**
   * A gate's construction changes nothing about a variable the output is not
   * upstream of: its formula, its value and what it depends on stay as they were.
   */
  lemma ConstructKeepsUnrelated(st: State, kind: Kind, out: VarId, ins: seq<VarId>, u: VarId)
    requires GateArgs(st, kind, out, ins) && Construct(st, kind, out, ins).Built?
    requires u < |st.vars| && !Upstream(st, u, out)
    ensures var next := Construct(st, kind, out, ins).next;
      && Formula(next, u) == Formula(st, u)
      && Evaluable(next, u) == Evaluable(st, u)
      && (Evaluable(st, u) ==> Value(next, u) == Value(st, u))
      && forall lv :: DependsOn(next, u, lv) == DependsOn(st, u, lv)
  {
    var next := Construct(st, kind, out, ins).next;
    forall w | 0 <= w < |st.vars| && Upstream(st, u, w)
      ensures w != out && WiredAlike(st, next, w) && next.vars[w] == st.vars[w]
    {
    }
    FrameFormula(st, next, u);
    FrameValue(st, next, u);
    forall lv
      ensures DependsOn(next, u, lv) == DependsOn(st, u, lv)
    {
      FrameDependsOn(st, next, u, lv);
    }
  }

  /** The inputs of a new gate keep their formula, value and dependencies. */
  lemma ConstructKeepsInputs(st: State, kind: Kind, out: VarId, ins: seq<VarId>, k: nat)
    requires GateArgs(st, kind, out, ins) && Construct(st, kind, out, ins).Built?
    requires k < |ins|
    ensures var next := Construct(st, kind, out, ins).next;
      && !Driven(next, ins[k]) == !Driven(st, ins[k])
      && Formula(next, ins[k]) == Formula(st, ins[k])
      && Evaluable(next, ins[k]) == Evaluable(st, ins[k])
      && (Evaluable(st, ins[k]) ==> Value(next, ins[k]) == Value(st, ins[k]))
      && forall lv :: DependsOn(next, ins[k], lv) == DependsOn(st, ins[k], lv)
  {
    NoClashNotUpstream(st, ins[k], out);
    ConstructKeepsUnrelated(st, kind, out, ins, ins[k]);
  }

  /**
   * What a constructed gate records: getOutput is the output, getInputs the
   * inputs in order and getSymbol the gate class's symbol; the output's
   * getCalculatedBy is the new gate, and no other variable or gate changes.
   */
  lemma ConstructRecordsWiring(st: State, kind: Kind, out: VarId, ins: seq<VarId>)
    requires GateArgs(st, kind, out, ins) && Construct(st, kind, out, ins).Built?
    ensures var r := Construct(st, kind, out, ins);
      && |r.next.gates| == |st.gates| + 1 && |r.next.vars| == |st.vars|
      && r.next.gates[r.gate] == Gate(kind, out, ins)
      && r.next.vars[out] == st.vars[out].(calculatedBy := Some(r.gate))
      && r.next.gates[..|st.gates|] == st.gates
      && forall u :: 0 <= u < |st.vars| && u != out ==> r.next.vars[u] == st.vars[u]
  {
  }

  /** A successful construction keeps every gate linked to its output, the new one included. */
  lemma ConstructKeepsLinked(st: State, kind: Kind, out: VarId, ins: seq<VarId>)
    requires GateArgs(st, kind, out, ins) && Construct(st, kind, out, ins).Built?
    requires OutputsLinked(st)
    ensures OutputsLinked(Construct(st, kind, out, ins).next)
  {
    var next := Construct(st, kind, out, ins).next;
    forall g | 0 <= g < |next.gates|
      ensures next.gates[g].output < |next.vars| && next.vars[next.gates[g].output].calculatedBy == Some(g)
    {
      if g < |st.gates| {
        assert st.gates[g].output != out;
      }
    }
  }

  /** The formulas of the given variables. */
  function Formulas(st: State, vs: seq<VarId>): (fs: seq<string>)
    requires Acyclic(st) && forall k :: 0 <= k < |vs| ==> vs[k] < |st.vars|
    ensures |fs| == |vs|
  {
    if |vs| == 0 then [] else [Formula(st, vs[0])] + Formulas(st, vs[1..])
  }

  lemma FormulasAt(st: State, vs: seq<VarId>, k: nat)
    requires Acyclic(st) && forall j :: 0 <= j < |vs| ==> vs[j] < |st.vars|
    requires k < |vs|
    ensures Formulas(st, vs)[k] == Formula(st, vs[k])
  {
    if k > 0 {
      FormulasAt(st, vs[1..], k - 1);
    }
  }

  /** After construction the output's formula is the gate's symbol applied to the inputs' formulas from before. */
  lemma ConstructFormula(st: State, kind: Kind, out: VarId, ins: seq<VarId>)
    requires GateArgs(st, kind, out, ins) && Construct(st, kind, out, ins).Built?
    ensures Formula(Construct(st, kind, out, ins).next, out) == Symbol(kind) + "(" + Join(Formulas(st, ins)) + ")"
  {
    var r := Construct(st, kind, out, ins);
    var next := r.next;
    forall k | 0 <= k < |ins|
      ensures InputFormulas(next, r.gate)[k] == Formulas(st, ins)[k]
    {
      ConstructKeepsInputs(st, kind, out, ins, k);
      FormulasAt(st, ins, k);
    }
    assert InputFormulas(next, r.gate) == Formulas(st, ins);
  }

  /**
   * After construction the output's value is the gate class's boolean
   * function of the inputs' values from before, when those can be read.
   */
  lemma ConstructValue(st: State, kind: Kind, out: VarId, ins: seq<VarId>)
    requires GateArgs(st, kind, out, ins) && Construct(st, kind, out, ins).Built?
    requires forall k :: 0 <= k < |ins| ==> Evaluable(st, ins[k])
    ensures var next := Construct(st, kind, out, ins).next;
      && Evaluable(next, out)
      && Value(next, out) == match kind
          case And => Value(st, ins[0]) && Value(st, ins[1])
          case Or => Value(st, ins[0]) || Value(st, ins[1])
          case Not => !Value(st, ins[0])
  {
    forall k | 0 <= k < |ins| {
      ConstructKeepsInputs(st, kind, out, ins, k);
    }
  }

  // ---------------------------------------------------------------------------
  // new LogicVariable

  /** The network after a LogicVariable is created: a free variable, with or without a value. */
  function WithVariable(st: State, name: string, value: Option<bool>): State
  {
    st.(vars := st.vars + [Variable(name, value, None)])
  }

  /** A new variable is wired to nothing, so the network stays acyclic. */
  lemma WithVariableAcyclic(st: State, name: string, value: Option<bool>)
    requires Acyclic(st)
    ensures Acyclic(WithVariable(st, name, value))
  {
    var st' := WithVariable(st, name, value);
    var (vr, gr) := Ranks(st);
    forall g | 0 <= g < |st.gates|
      ensures GateOk(st', st'.gates[g])
    {
      assert GateOk(st, st.gates[g]);
    }
    assert RankOk(st', vr + [0], gr);
  }

  /** Creating a variable changes no existing variable's formula or value. */
  lemma WithVariableKeeps(st: State, name: string, value: Option<bool>, u: VarId)
    requires Acyclic(st) && u < |st.vars|
    ensures var st' := WithVariable(st, name, value);
      && Acyclic(st')
      && Formula(st', u) == Formula(st, u)
      && Evaluable(st', u) == Evaluable(st, u)
      && (Evaluable(st, u) ==> Value(st', u) == Value(st, u))
  {
    var st' := WithVariable(st, name, value);
    WithVariableAcyclic(st, name, value);
    FrameFormula(st, st', u);
    FrameValue(st, st', u);
  }

  /** Creating a variable keeps every gate linked to its output. */
  lemma WithVariableKeepsLinked(st: State, name: string, value: Option<bool>)
    requires OutputsLinked(st)
    ensures OutputsLinked(WithVariable(st, name, value))
  {
    var st' := WithVariable(st, name, value);
    forall g | 0 <= g < |st'.gates|
      ensures st'.gates[g].output < |st'.vars| && st'.vars[st'.gates[g].output].calculatedBy == Some(g)
    {
      assert st'.vars[st.gates[g].output] == st.vars[st.gates[g].output];
    }
  }

  // ---------------------------------------------------------------------------
  // setValue

  /** The network after LogicVariable.setValue(b) on x: only x's stored value changes. */
  function WithValue(st: State, x: VarId, b: bool): State
    requires x < |st.vars|
  {
    st.(vars := st.vars[x := st.vars[x].(value := Some(b))])
  }

  /** setValue does not touch the wiring, so the network stays acyclic. */
  lemma WithValueAcyclic(st: State, x: VarId, b: bool)
    requires Acyclic(st) && x < |st.vars|
    ensures Acyclic(WithValue(st, x, b))
  {
    var (vr, gr) := Ranks(st);
    assert RankOk(WithValue(st, x, b), vr, gr);
  }

  /** setValue keeps every gate linked to its output. */
  lemma WithValueKeepsLinked(st: State, x: VarId, b: bool)
    requires x < |st.vars| && OutputsLinked(st)
    ensures OutputsLinked(WithValue(st, x, b))
  {
  }

  /** On a free variable, getValue returns what setValue stored. */
  lemma SetValueThenGet(st: State, x: VarId, b: bool)
    requires Acyclic(st) && x < |st.vars| && !Driven(st, x)
    ensures var st' := WithValue(st, x, b); Acyclic(st') && Evaluable(st', x) && Value(st', x) == b
  {
    WithValueAcyclic(st, x, b);
  }

  /** On a driven variable, setValue changes no variable's getValue. */
  lemma SetValueOnDrivenInvisible(st: State, x: VarId, b: bool, u: VarId)
    requires Acyclic(st) && x < |st.vars| && Driven(st, x) && u < |st.vars|
    ensures var st' := WithValue(st, x, b);
      && Acyclic(st')
      && Evaluable(st', u) == Evaluable(st, u)
      && (Evaluable(st, u) ==> Value(st', u) == Value(st, u))
  {
    var st' := WithValue(st, x, b);
    WithValueAcyclic(st, x, b);
    FrameValue(st, st', u);
  }

  /** setValue changes no variable's getFormula. */
  lemma SetValueKeepsFormula(st: State, x: VarId, b: bool, u: VarId)
    requires Acyclic(st) && x < |st.vars| && u < |st.vars|
    ensures var st' := WithValue(st, x, b); Acyclic(st') && Formula(st', u) == Formula(st, u)
  {
    WithValueAcyclic(st, x, b);
    FrameFormula(st, WithValue(st, x, b), u);
  }

  /** setValue on x changes nothing about a variable x is not upstream of. */
  lemma SetValueKeepsUnrelated(st: State, x: VarId, b: bool, u: VarId, lv: Variable)
    requires Acyclic(st) && x < |st.vars| && u < |st.vars| && !Upstream(st, u, x)
    ensures var st' := WithValue(st, x, b);
      && Acyclic(st')
      && Evaluable(st', u) == Evaluable(st, u)
      && (Evaluable(st, u) ==> Value(st', u) == Value(st, u))
      && DependsOn(st', u, lv) == DependsOn(st, u, lv)
  {
    var st' := WithValue(st, x, b);
    WithValueAcyclic(st, x, b);
    FrameValue(st, st', u);
    FrameDependsOn(st, st', u, lv);
  }
}
