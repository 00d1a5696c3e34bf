/**
 * What the queries of module Graph mean: dependsOn compared with reachability,
 * the shape of formulas, the value of each gate class, and what a change of
 * the network leaves alone.
 */
module GraphFacts {

  import opened Wrappers
  import opened Gates
  import opened Variables
  import opened Graph

  // ---------------------------------------------------------------------------
  // Acyclicity

  /** Along any chain of wires the rank strictly decreases. */
  lemma {:induction false} ReachesLowersRank(st: State, vr: seq<nat>, gr: seq<nat>, v: VarId, u: VarId)
    requires RankOk(st, vr, gr) && v < |st.vars|
    requires Reaches(st, v, u)
    ensures u < |st.vars| && vr[u] < vr[v]
    decreases vr[v], 1
  {
    var g := st.vars[v].calculatedBy.value;
    GateReachesLowersRank(st, vr, gr, g, u);
  }

  lemma {:induction false} GateReachesLowersRank(st: State, vr: seq<nat>, gr: seq<nat>, g: GateId, u: VarId)
    requires RankOk(st, vr, gr) && g < |st.gates|
    requires GateReaches(st, g, u)
    ensures u < |st.vars| && vr[u] < gr[g]
    decreases gr[g], 0
  {
    var ins := st.gates[g].inputs;
    var k :| 0 <= k < |ins| && (ins[k] == u || Reaches(st, ins[k], u));
    if ins[k] != u {
      ReachesLowersRank(st, vr, gr, ins[k], u);
    }
  }

  /** No variable lies upstream of itself. */
  lemma NoSelfReach(st: State, v: VarId)
    requires Acyclic(st) && v < |st.vars|
    ensures !Reaches(st, v, v)
  {
    if Reaches(st, v, v) {
      var r := Ranks(st);
      ReachesLowersRank(st, r.0, r.1, v, v);
    }
  }

  /** Whatever is upstream of an input of v's driving gate is upstream of v. */
  lemma StepReaches(st: State, v: VarId, k: nat, u: VarId)
    requires Acyclic(st) && v < |st.vars| && Driven(st, v)
    requires k < |st.gates[st.vars[v].calculatedBy.value].inputs|
    requires Upstream(st, st.gates[st.vars[v].calculatedBy.value].inputs[k], u)
    ensures Reaches(st, v, u)
  {
    var g := st.vars[v].calculatedBy.value;
    var ins := st.gates[g].inputs;
    assert ins[k] == u || Reaches(st, ins[k], u);
  }

  // ---------------------------------------------------------------------------
  // dependsOn

  /** The loop of LogicGate.dependsOn returns true exactly when some input from k on equals lv or depends on it. */
  lemma {:induction false} DependsOnFromAnyInput(st: State, g: GateId, k: nat, lv: Variable)
    requires Acyclic(st) && g < |st.gates| && k <= |st.gates[g].inputs|
    ensures DependsOnFrom(st, g, k, lv) <==>
      exists j :: k <= j < |st.gates[g].inputs| &&
        (Equals(st.vars[st.gates[g].inputs[j]], lv) || DependsOn(st, st.gates[g].inputs[j], lv))
    decreases |st.gates[g].inputs| - k
  {
    if k < |st.gates[g].inputs| {
      DependsOnFromAnyInput(st, g, k + 1, lv);
    }
  }

  /** LogicGate.dependsOn(lv) holds iff some input equals lv or some input depends on lv. */
  lemma GateDependsOnAnyInput(st: State, g: GateId, lv: Variable)
    requires Acyclic(st) && g < |st.gates|
    ensures GateDependsOn(st, g, lv) <==>
      exists j :: 0 <= j < |st.gates[g].inputs| &&
        (Equals(st.vars[st.gates[g].inputs[j]], lv) || DependsOn(st, st.gates[g].inputs[j], lv))
  {
    DependsOnFromAnyInput(st, g, 0, lv);
  }

  /**
   * dependsOn(lv) holds of v exactly when some variable upstream of v equals
   * lv: the search follows object references, but the test at each variable
   * is equals, not identity.
   */
  lemma {:induction false} DependsOnIffUpstreamEqual(st: State, v: VarId, lv: Variable)
    requires Acyclic(st) && v < |st.vars|
    ensures DependsOn(st, v, lv) <==> exists u :: 0 <= u < |st.vars| && Reaches(st, v, u) && Equals(st.vars[u], lv)
    decreases VarRank(st, v), 1
  {
    match st.vars[v].calculatedBy
    case None =>
    case Some(g) =>
      GateDependsOnIffUpstreamEqual(st, g, lv);
  }

  lemma {:induction false} GateDependsOnIffUpstreamEqual(st: State, g: GateId, lv: Variable)
    requires Acyclic(st) && g < |st.gates|
    ensures GateDependsOn(st, g, lv) <==> exists u :: 0 <= u < |st.vars| && GateReaches(st, g, u) && Equals(st.vars[u], lv)
    decreases GateRank(st, g), 0
  {
    var ins := st.gates[g].inputs;
    GateDependsOnAnyInput(st, g, lv);
    forall j | 0 <= j < |ins| {
      DependsOnIffUpstreamEqual(st, ins[j], lv);
    }
    if GateDependsOn(st, g, lv) {
      var j :| 0 <= j < |ins| && (Equals(st.vars[ins[j]], lv) || DependsOn(st, ins[j], lv));
      if Equals(st.vars[ins[j]], lv) {
        assert GateReaches(st, g, ins[j]);
      } else {
        var u :| 0 <= u < |st.vars| && Reaches(st, ins[j], u) && Equals(st.vars[u], lv);
        assert GateReaches(st, g, u);
      }
    }
    if exists u :: 0 <= u < |st.vars| && GateReaches(st, g, u) && Equals(st.vars[u], lv) {
      var u :| 0 <= u < |st.vars| && GateReaches(st, g, u) && Equals(st.vars[u], lv);
      var j :| 0 <= j < |ins| && (ins[j] == u || Reaches(st, ins[j], u));
      assert Equals(st.vars[ins[j]], lv) || DependsOn(st, ins[j], lv);
    }
  }

  /** A variable upstream of v, or equal to one, is found by v.dependsOn. */
  lemma ReachesImpliesDependsOn(st: State, v: VarId, u: VarId, lv: Variable)
    requires Acyclic(st) && v < |st.vars| && u < |st.vars|
    requires Reaches(st, v, u) && Equals(st.vars[u], lv)
    ensures DependsOn(st, v, lv)
  {
    DependsOnIffUpstreamEqual(st, v, lv);
  }

  // ---------------------------------------------------------------------------
  // getFormula

  lemma JoinOne(a: string)
    ensures Join([a]) == a
  {
  }

  lemma JoinTwo(a: string, b: string)
    ensures Join([a, b]) == a + "," + b
  {
    assert [a, b][..1] == [a];
  }

  /** Appending one more formula, as each turn of the loop in LogicGate.getFormula does. */
  lemma JoinSnoc(fs: seq<string>, f: string)
    ensures Join(fs + [f]) == (if |fs| == 0 then f else Join(fs) + "," + f)
  {
    assert (fs + [f])[..|fs|] == fs;
  }

  /**
   * The formula of a driven variable is its gate's symbol applied to its
   * inputs' formulas: SYM(a,b) for AND and OR, SYM(a) for NOT.
   */
  lemma FormulaOfDriven(st: State, v: VarId)
    requires Acyclic(st) && v < |st.vars| && Driven(st, v)
    ensures var gate := st.gates[st.vars[v].calculatedBy.value];
      Formula(st, v) ==
        if gate.kind == Not then Symbol(Not) + "(" + Formula(st, gate.inputs[0]) + ")"
        else Symbol(gate.kind) + "(" + Formula(st, gate.inputs[0]) + "," + Formula(st, gate.inputs[1]) + ")"
  {
    var g := st.vars[v].calculatedBy.value;
    var gate := st.gates[g];
    var fs := InputFormulas(st, g);
    if gate.kind == Not {
      assert fs == [Formula(st, gate.inputs[0])];
    } else {
      assert fs == [Formula(st, gate.inputs[0]), Formula(st, gate.inputs[1])];
      JoinTwo(fs[0], fs[1]);
    }
  }

  /** A free variable's formula is its name. */
  lemma FormulaOfFree(st: State, v: VarId)
    requires Acyclic(st) && v < |st.vars| && !Driven(st, v)
    ensures Formula(st, v) == st.vars[v].name
  {
  }

  // ---------------------------------------------------------------------------
  // getValue

  /** A free variable's value is its stored value. */
  lemma ValueOfFree(st: State, v: VarId)
    requires Acyclic(st) && v < |st.vars| && !Driven(st, v)
    ensures Evaluable(st, v) <==> st.vars[v].value.Some?
    ensures Evaluable(st, v) ==> Value(st, v) == st.vars[v].value.value
  {
  }

  /** GateAnd: the conjunction of the inputs, and false as soon as the first input is false. */
  lemma AndValue(st: State, v: VarId)
    requires Acyclic(st) && v < |st.vars| && Driven(st, v)
    requires st.gates[st.vars[v].calculatedBy.value].kind == And
    ensures var ins := st.gates[st.vars[v].calculatedBy.value].inputs;
      && (Evaluable(st, v) <==> Evaluable(st, ins[0]) && (Value(st, ins[0]) ==> Evaluable(st, ins[1])))
      && (Evaluable(st, ins[0]) && !Value(st, ins[0]) ==> Evaluable(st, v) && !Value(st, v))
      && (Evaluable(st, ins[0]) && Evaluable(st, ins[1]) ==>
            Evaluable(st, v) && Value(st, v) == (Value(st, ins[0]) && Value(st, ins[1])))
  {
  }

  /** GateOr: the disjunction of the inputs, and true as soon as the first input is true. */
  lemma OrValue(st: State, v: VarId)
    requires Acyclic(st) && v < |st.vars| && Driven(st, v)
    requires st.gates[st.vars[v].calculatedBy.value].kind == Or
    ensures var ins := st.gates[st.vars[v].calculatedBy.value].inputs;
      && (Evaluable(st, v) <==> Evaluable(st, ins[0]) && (!Value(st, ins[0]) ==> Evaluable(st, ins[1])))
      && (Evaluable(st, ins[0]) && Value(st, ins[0]) ==> Evaluable(st, v) && Value(st, v))
      && (Evaluable(st, ins[0]) && Evaluable(st, ins[1]) ==>
            Evaluable(st, v) && Value(st, v) == (Value(st, ins[0]) || Value(st, ins[1])))
  {
  }

  /** GateNot: the negation of its one input. */
  lemma NotValue(st: State, v: VarId)
    requires Acyclic(st) && v < |st.vars| && Driven(st, v)
    requires st.gates[st.vars[v].calculatedBy.value].kind == Not
    ensures var ins := st.gates[st.vars[v].calculatedBy.value].inputs;
      && (Evaluable(st, v) <==> Evaluable(st, ins[0]))
      && (Evaluable(st, v) ==> Value(st, v) == !Value(st, ins[0]))
  {
  }

  // ---------------------------------------------------------------------------
  // Gates and their outputs

  /** When outputs are linked, no two gates drive the same variable. */
  lemma LinkedOutputsDistinct(st: State, g1: GateId, g2: GateId)
    requires OutputsLinked(st) && g1 < |st.gates| && g2 < |st.gates| && g1 != g2
    ensures st.gates[g1].output != st.gates[g2].output
  {
  }

  /** When outputs are linked, a gate's getFormula is its output's getFormula. */
  lemma LinkedFormula(st: State, g: GateId)
    requires Acyclic(st) && OutputsLinked(st) && g < |st.gates|
    ensures st.gates[g].output < |st.vars| && Formula(st, st.gates[g].output) == GateFormula(st, g)
  {
  }

  /** When outputs are linked, a gate's getValue is its output's getValue. */
  lemma LinkedValue(st: State, g: GateId)
    requires Acyclic(st) && OutputsLinked(st) && g < |st.gates|
    ensures var out := st.gates[g].output;
      && out < |st.vars|
      && (Evaluable(st, out) <==> GateEvaluable(st, g))
      && (Evaluable(st, out) ==> Value(st, out) == GateValue(st, g))
  {
  }

  /** Every free variable upstream of v (or v itself) holds a value. */
  ghost predicate InputsSet(st: State, v: VarId)
    requires Acyclic(st) && v < |st.vars|
  {
    forall u :: 0 <= u < |st.vars| && Upstream(st, v, u) && !Driven(st, u) ==> st.vars[u].value.Some?
  }

  /** getValue never meets an absent value when every free variable upstream holds one. */
  lemma {:induction false} InputsSetEvaluable(st: State, v: VarId)
    requires Acyclic(st) && v < |st.vars| && InputsSet(st, v)
    ensures Evaluable(st, v)
    decreases VarRank(st, v)
  {
    assert Upstream(st, v, v);
    if Driven(st, v) {
      var g := st.vars[v].calculatedBy.value;
      var ins := st.gates[g].inputs;
      forall k | 0 <= k < |ins|
        ensures Evaluable(st, ins[k])
      {
        forall u | 0 <= u < |st.vars| && Upstream(st, ins[k], u)
          ensures Upstream(st, v, u)
        {
          StepReaches(st, v, k, u);
        }
        InputsSetEvaluable(st, ins[k]);
      }
    }
  }

  // ---------------------------------------------------------------------------
  // Frames: what a query reads

  /** Variable w has the same name, driver and (if driven) gate in st2 as in st. */
  ghost predicate WiredAlike(st: State, st2: State, w: VarId)
    requires WellFormed(st) && w < |st.vars|
  {
    && w < |st2.vars|
    && st2.vars[w].name == st.vars[w].name
    && st2.vars[w].calculatedBy == st.vars[w].calculatedBy
    && (st.vars[w].calculatedBy.Some? ==>
          var g := st.vars[w].calculatedBy.value;
          g < |st2.gates| && st2.gates[g] == st.gates[g])
  }

  /** Every variable upstream of u, and u itself, is wired alike in both states. */
  ghost predicate WiredAlikeAbove(st: State, st2: State, u: VarId)
    requires Acyclic(st) && u < |st.vars|
  {
    forall w :: 0 <= w < |st.vars| && Upstream(st, u, w) ==> WiredAlike(st, st2, w)
  }

  /** What is upstream of an input of u is upstream of u. */
  lemma AboveInput(st: State, u: VarId, k: nat)
    requires Acyclic(st) && u < |st.vars| && Driven(st, u)
    requires k < |st.gates[st.vars[u].calculatedBy.value].inputs|
    ensures var i := st.gates[st.vars[u].calculatedBy.value].inputs[k];
      forall w :: 0 <= w < |st.vars| && Upstream(st, i, w) ==> Reaches(st, u, w)
  {
    var i := st.gates[st.vars[u].calculatedBy.value].inputs[k];
    forall w | 0 <= w < |st.vars| && Upstream(st, i, w)
      ensures Reaches(st, u, w)
    {
      StepReaches(st, u, k, w);
    }
  }

  /** getFormula reads only names and wiring upstream. */
  lemma {:induction false} FrameFormula(st: State, st2: State, u: VarId)
    requires Acyclic(st) && Acyclic(st2) && u < |st.vars|
    requires WiredAlikeAbove(st, st2, u)
    ensures u < |st2.vars| && Formula(st2, u) == Formula(st, u)
    decreases VarRank(st, u)
  {
    assert Upstream(st, u, u);
    if Driven(st, u) {
      var g := st.vars[u].calculatedBy.value;
      var ins := st.gates[g].inputs;
      forall k | 0 <= k < |ins|
        ensures Formula(st2, ins[k]) == Formula(st, ins[k])
      {
        AboveInput(st, u, k);
        FrameFormula(st, st2, ins[k]);
      }
      assert InputFormulas(st2, g) == InputFormulas(st, g);
    }
  }

  /** getValue reads only the wiring upstream and the stored values of free variables upstream. */
  lemma {:induction false} FrameValue(st: State, st2: State, u: VarId)
    requires Acyclic(st) && Acyclic(st2) && u < |st.vars|
    requires WiredAlikeAbove(st, st2, u)
    requires forall w :: 0 <= w < |st.vars| && Upstream(st, u, w) && !Driven(st, w) ==>
      st2.vars[w].value == st.vars[w].value
    ensures u < |st2.vars| && Evaluable(st2, u) == Evaluable(st, u)
    ensures Evaluable(st, u) ==> Value(st2, u) == Value(st, u)
    decreases VarRank(st, u)
  {
    assert Upstream(st, u, u);
    if Driven(st, u) {
      var g := st.vars[u].calculatedBy.value;
      var ins := st.gates[g].inputs;
      forall k | 0 <= k < |ins|
        ensures Evaluable(st2, ins[k]) == Evaluable(st, ins[k])
        ensures Evaluable(st, ins[k]) ==> Value(st2, ins[k]) == Value(st, ins[k])
      {
        AboveInput(st, u, k);
        FrameValue(st, st2, ins[k]);
      }
    }
  }

  /** dependsOn reads only the wiring and the stored fields of the variables upstream. */
  lemma {:induction false} FrameDependsOn(st: State, st2: State, u: VarId, lv: Variable)
    requires Acyclic(st) && Acyclic(st2) && u < |st.vars|
    requires WiredAlikeAbove(st, st2, u)
    requires forall w :: 0 <= w < |st.vars| && Reaches(st, u, w) ==> w < |st2.vars| && st2.vars[w].value == st.vars[w].value
    ensures u < |st2.vars| && DependsOn(st2, u, lv) == DependsOn(st, u, lv)
    decreases VarRank(st, u)
  {
    assert Upstream(st, u, u);
    if Driven(st, u) {
      var g := st.vars[u].calculatedBy.value;
      var ins := st.gates[g].inputs;
      forall k | 0 <= k < |ins|
        ensures st2.vars[ins[k]] == st.vars[ins[k]]
        ensures DependsOn(st2, ins[k], lv) == DependsOn(st, ins[k], lv)
      {
        AboveInput(st, u, k);
        assert Upstream(st, ins[k], ins[k]);
        assert Upstream(st, u, ins[k]) && WiredAlike(st, st2, ins[k]);
        forall w | 0 <= w < |st.vars| && Reaches(st, ins[k], w)
          ensures Reaches(st, u, w)
        {
          assert Upstream(st, ins[k], w);
        }
        FrameDependsOn(st, st2, ins[k], lv);
      }
      GateDependsOnAnyInput(st, g, lv);
      GateDependsOnAnyInput(st2, g, lv);
    }
  }
}
